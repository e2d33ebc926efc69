/** The status badge: the configured label for a known status, otherwise a
    neutral badge that shows the raw status, or "Unknown" when there is none. */
module StatusBadge {
  import opened Outcomes
  import opened Marketplace
  import StatusConfig

  /** What the badge shows. `configured` tells the configured style apart
      from the neutral fallback style. */
  datatype Badge = Badge(text: string, configured: bool)

  /** The badge for the `status` prop; `None` is a missing prop. The
      function has no precondition: every input gets a badge. */
  function BadgeFor(status: Option<string>): (b: Badge)
    ensures b.text != ""
    ensures b.configured <==> status.Some? && status.value in StatusConfig.Labels
  {
    if status.Some? && status.value in StatusConfig.Labels then
      StatusConfig.LabelsNonEmpty(status.value);
      Badge(StatusConfig.Labels[status.value], true)
    else if status.Some? && status.value != "" then
      Badge(status.value, false)
    else
      Badge("Unknown", false)
  }

  /** A configured status shows its configured label. */
  lemma KnownStatusShowsLabel(status: string)
    requires status in StatusConfig.Labels
    ensures BadgeFor(Some(status)) == Badge(StatusConfig.Labels[status], true)
  {
  }

  /** An unknown, non-empty status shows its own text on the neutral badge. */
  lemma UnknownStatusShowsRaw(status: string)
    requires status != "" && status !in StatusConfig.Labels
    ensures BadgeFor(Some(status)) == Badge(status, false)
  {
  }

  /** A missing or empty status shows "Unknown". */
  lemma MissingStatusShowsUnknown(status: Option<string>)
    requires status.None? || status == Some("")
    ensures BadgeFor(status) == Badge("Unknown", false)
  {
    assert "" !in StatusConfig.Labels;
  }

  /** CANCELLED has no entry, so it takes the fallback and shows "CANCELLED". */
  lemma CancelledShowsRaw()
    ensures BadgeFor(Some(Cancelled)) == Badge("CANCELLED", false)
  {
    StatusConfig.TableKeys();
  }

  /** The text alone does not identify the status: the unknown status
      "Booked" reads the same as CREATED; only the style differs. */
  lemma TextDoesNotDetermineStatus()
    ensures BadgeFor(Some("Booked")).text == BadgeFor(Some(Created)).text
    ensures BadgeFor(Some("Booked")) != BadgeFor(Some(Created))
  {
    StatusConfig.TableKeys();
  }

  /** On the configured branch the text does identify the status. */
  lemma ConfiguredTextDeterminesStatus(a: string, b: string)
    requires BadgeFor(Some(a)).configured && BadgeFor(Some(b)).configured
    requires BadgeFor(Some(a)).text == BadgeFor(Some(b)).text
    ensures a == b
  {
    StatusConfig.LabelsDistinct(a, b);
  }
}
