/**
 * The working-day picker shared by the create-gym and settings pages: clicking a day removes it
 * when selected and appends it otherwise.
 */
module WorkingDays {
  import Lists

  const WeekDays: seq<string> := ["Monday", "Tuesday", "Wednesday", "Thursday", "Friday", "Saturday", "Sunday"]

  /** `days.includes(day) ? days.filter(d => d !== day) : [...days, day]`. */
  function Toggle(days: seq<string>, day: string): (r: seq<string>)
    ensures day in r <==> day !in days
    ensures forall d :: d != day ==> (d in r <==> d in days)
    ensures day !in days ==> r == days + [day]
    ensures day in days ==> r == Lists.Without(days, day)
  {
    if day in days then Lists.Without(days, day) else days + [day]
  }

  /** Clicking an unselected day twice gives back exactly the list before. */
  lemma ToggleTwiceRestores(days: seq<string>, day: string)
    requires day !in days
    ensures Toggle(Toggle(days, day), day) == days
  {
    Lists.WithoutAppended(days, day);
  }

  /** Toggling keeps a list without repeats free of repeats. */
  lemma ToggleNoDup(days: seq<string>, day: string)
    requires Lists.NoDup(days)
    ensures Lists.NoDup(Toggle(days, day))
  {
    if day in days {
      Lists.WithoutNoDup(days, day);
    } else {
      Lists.AppendNoDup(days, day);
    }
  }

  /** On a list without repeats, a toggle changes the count of selected days by exactly one. */
  lemma ToggleCount(days: seq<string>, day: string)
    requires Lists.NoDup(days)
    ensures day in days ==> |Toggle(days, day)| == |days| - 1
    ensures day !in days ==> |Toggle(days, day)| == |days| + 1
  {
    if day in days {
      Lists.WithoutLength(days, day);
    }
  }

  /** The selection after clicking `clicks` in order, starting from `days`. */
  function ToggleAll(days: seq<string>, clicks: seq<string>): (r: seq<string>)
    decreases |clicks|
  {
    if clicks == [] then days else ToggleAll(Toggle(days, clicks[0]), clicks[1..])
  }

  /** The first click flips whether a day has been clicked an odd number of times, for that day only. */
  lemma OddAfterFirst(clicks: seq<string>, d: string)
    requires clicks != []
    ensures (multiset(clicks)[d] % 2 == 1) == ((d == clicks[0]) != (multiset(clicks[1..])[d] % 2 == 1))
  {
    assert clicks == [clicks[0]] + clicks[1..];
    assert multiset(clicks) == multiset{clicks[0]} + multiset(clicks[1..]);
  }

  /** A day ends up selected exactly when it started selected and was clicked an even number of times, or the reverse. */
  lemma {:induction false} ToggleAllHas(days: seq<string>, clicks: seq<string>, d: string)
    ensures d in ToggleAll(days, clicks) <==> ((d in days) != (multiset(clicks)[d] % 2 == 1))
    decreases |clicks|
  {
    if clicks != [] {
      var next := Toggle(days, clicks[0]);
      assert d in next <==> ((d in days) != (d == clicks[0]));
      OddAfterFirst(clicks, d);
      ToggleAllHas(next, clicks[1..], d);
    }
  }

  /** Starting from no days, the selection is empty exactly when every day was clicked an even number of times. */
  lemma ClicksLeaveNoDays(clicks: seq<string>)
    ensures ToggleAll([], clicks) == [] <==> forall d :: multiset(clicks)[d] % 2 == 0
  {
    var r := ToggleAll([], clicks);
    if r != [] {
      ToggleAllHas([], clicks, r[0]);
    }
    forall d | multiset(clicks)[d] % 2 == 1 ensures d in r {
      ToggleAllHas([], clicks, d);
    }
  }

  /** Starting from no days, any sequence of clicks leaves a list without repeats. */
  lemma {:induction false} ToggleAllNoDup(days: seq<string>, clicks: seq<string>)
    requires Lists.NoDup(days)
    ensures Lists.NoDup(ToggleAll(days, clicks))
    decreases |clicks|
  {
    if clicks != [] {
      ToggleNoDup(days, clicks[0]);
      ToggleAllNoDup(Toggle(days, clicks[0]), clicks[1..]);
    }
  }

  /** After any clicks on the picker's buttons, the selection lists at most the seven week days. */
  lemma {:induction false} ClicksSelectWeekDays(clicks: seq<string>)
    requires forall c :: c in clicks ==> c in WeekDays
    ensures var r := ToggleAll([], clicks);
      Lists.NoDup(r) && (forall d :: d in r ==> d in WeekDays) && |r| <= 7
  {
    ToggleAllNoDup([], clicks);
    ToggleAllWithin([], clicks);
    var r := ToggleAll([], clicks);
    Lists.NoDupCard(r);
    assert (set d | d in r) <= (set d | d in WeekDays);
    Lists.SeqSetCard(WeekDays);
    Lists.SubsetCard(set d | d in r, set d | d in WeekDays);
  }

  /** Clicking only week days never selects anything else. */
  lemma {:induction false} ToggleAllWithin(days: seq<string>, clicks: seq<string>)
    requires forall c :: c in clicks ==> c in WeekDays
    requires forall d :: d in days ==> d in WeekDays
    ensures forall d :: d in ToggleAll(days, clicks) ==> d in WeekDays
    decreases |clicks|
  {
    if clicks != [] {
      ToggleAllWithin(Toggle(days, clicks[0]), clicks[1..]);
    }
  }
}
