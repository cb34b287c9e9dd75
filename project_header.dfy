/**
 * The project header: the relative "last saved" time, the title shown for an
 * untitled project, and the title edit through the browser's prompt dialog.
 */
module ProjectHeader {
  import opened Common
  import opened PRDContext
  import opened OnboardingTour

  /** `formatRelativeTime`: whole minutes under an hour, then whole hours
      under a day, then whole days (each rounded down). */
  function FormatRelativeTime(nowMs: int, dateMs: int): (s: string)
  {
    var minutes := WholeMinutes(nowMs, dateMs);
    if minutes < 1 then "just now"
    else if minutes < 60 then IntToString(minutes) + " minutes ago"
    else
      var hours := minutes / 60;
      if hours < 24 then IntToString(hours) + " hours ago"
      else
        var days := hours / 24;
        IntToString(days) + " days ago"
  }

  /** The four cases by elapsed minutes m: below one, below sixty, below
      1440 (hours = m / 60, between 1 and 23) and beyond (days = m / 1440, at least 1). */
  lemma RelativeTimeCases(nowMs: int, dateMs: int)
    ensures var m := WholeMinutes(nowMs, dateMs);
      (m < 1 ==> FormatRelativeTime(nowMs, dateMs) == "just now") &&
      (1 <= m < 60 ==> FormatRelativeTime(nowMs, dateMs) == NatToString(m) + " minutes ago") &&
      (60 <= m < 1440 ==>
        1 <= m / 60 <= 23 && FormatRelativeTime(nowMs, dateMs) == NatToString(m / 60) + " hours ago") &&
      (m >= 1440 ==>
        m / 1440 >= 1 && FormatRelativeTime(nowMs, dateMs) == NatToString(m / 1440) + " days ago")
  {
    var m := WholeMinutes(nowMs, dateMs);
    if m >= 60 {
      HoursThenDays(m);
    }
  }

  /** Rounding down to hours and then to days is rounding down to days. */
  lemma HoursThenDays(m: int)
    requires m >= 0
    ensures (m / 60) / 24 == m / 1440
    ensures m / 60 < 24 <==> m < 1440
  {
    var h := m / 60;
    var d := h / 24;
    assert 60 * h <= m < 60 * h + 60;
    assert 24 * d <= h < 24 * d + 24;
    assert 1440 * d <= m < 1440 * d + 1440;
  }

  /** The header computes its "last saved" time at render, so it reads 'just now'. */
  lemma SavedJustNow(nowMs: int)
    ensures FormatRelativeTime(nowMs, nowMs) == "just now"
  {
  }

  /** `title || 'Untitled Project'`. */
  function DisplayTitle(title: string): (s: string)
    ensures s != ""
    ensures title != "" ==> s == title
  {
    OrElse(title, "Untitled Project")
  }

  /** `handleTitleEdit`, with the prompt's answer as a parameter (`None` when
      the dialog is cancelled): the title becomes the trimmed answer only when
      that is non-empty. */
  method HandleTitleEdit(store: PRDStore, answer: Option<string>)
    modifies store`title
    ensures answer.Some? && !IsBlank(answer.value) ==> store.title == Trim(answer.value) && store.title != ""
    ensures answer.None? || IsBlank(answer.value) ==> store.title == old(store.title)
  {
    if answer.Some? && answer.value != "" {
      var trimmed := Trim(answer.value);
      if trimmed != "" {
        store.SetTitle(trimmed);
      }
    }
  }

  /** The "Tour" button is shown once the onboarding was completed. */
  predicate TourButtonShown(hook: Onboarding)
    reads hook
  {
    hook.hasCompletedOnboarding
  }

  /** The "Tour" button as written: the header calls `useOnboarding` itself, so
      the click starts the header's own hook instance, while the tour on the
      workspace page reads a different instance, which the click leaves alone. */
  method ClickTourAsWritten(header: Onboarding, page: Onboarding, tour: Tour)
    requires header != page
    requires TourButtonShown(header)
    modifies header`isOnboardingActive
    ensures header.isOnboardingActive
    ensures tour.Renders(page) == old(tour.Renders(page))
  {
    header.StartOnboarding();
  }

  /** A returning user clicks "Tour" on a freshly mounted workspace: the tour
      stays hidden. */
  method TourButtonLeavesTourHidden() returns (shown: bool)
    ensures !shown
  {
    var page := new Onboarding();
    var header := new Onboarding();
    page.LoadStored(Some("true"));
    header.LoadStored(Some("true"));
    var tour := new Tour(true);
    ClickTourAsWritten(header, page, tour);
    shown := tour.Renders(page);
  }

  /** The "Tour" button with the onboarding state shared with the workspace
      page: the click shows the tour (at the step where it was left, since
      the tour keeps its step counter while hidden). */
  method ClickTour(shared: Onboarding, tour: Tour)
    requires TourButtonShown(shared)
    modifies shared`isOnboardingActive
    ensures tour.Renders(shared) && shared.hasCompletedOnboarding
  {
    shared.StartOnboarding();
  }
}
