/** The shared status table: the label each known booking status is shown
    with on a status badge. The table's CSS class names are left out. */
module StatusConfig {
  import opened Outcomes
  import opened Marketplace

  const Labels: map<string, string> := map[
    Created := "Booked",
    Assigned := "Assigned",
    InProgress := "In Progress",
    Completed := "Completed"
  ]

  /** The listed labels of the four configured statuses. */
  lemma KnownLabels()
    ensures Labels[Created] == "Booked"
    ensures Labels[Assigned] == "Assigned"
    ensures Labels[InProgress] == "In Progress"
    ensures Labels[Completed] == "Completed"
  {
  }

  /** The table has exactly four keys; CANCELLED is not one of them. */
  lemma TableKeys()
    ensures Labels.Keys == {Created, Assigned, InProgress, Completed}
    ensures |Labels| == 4
    ensures Cancelled !in Labels
  {
    assert Labels.Keys == {Created, Assigned, InProgress, Completed};
  }

  /** No label is empty. */
  lemma LabelsNonEmpty(status: string)
    requires status in Labels
    ensures Labels[status] != ""
  {
  }

  /** The labels are pairwise distinct, so a label names one status. */
  lemma LabelsDistinct(a: string, b: string)
    requires a in Labels && b in Labels && Labels[a] == Labels[b]
    ensures a == b
  {
  }

  /** Reads a label back to the configured status it stands for. */
  function StatusOfLabel(text: string): (status: Option<string>)
    ensures status.Some? ==> status.value in Labels && Labels[status.value] == text
    ensures status.None? ==> forall s | s in Labels :: Labels[s] != text
  {
    if text == "Booked" then Some(Created)
    else if text == "Assigned" then Some(Assigned)
    else if text == "In Progress" then Some(InProgress)
    else if text == "Completed" then Some(Completed)
    else None
  }

  /** A configured status is recovered from its label. */
  lemma LabelDeterminesStatus(status: string)
    requires status in Labels
    ensures StatusOfLabel(Labels[status]) == Some(status)
  {
    var r := StatusOfLabel(Labels[status]);
    LabelsDistinct(r.value, status);
  }
}
