/** The provider-facing job card: its own status label/tone table with a
    fallback, the text its status chip shows, and which action buttons it
    offers for a status. */
module JobCard {
  import opened Marketplace

  datatype Tone = Warning | Info | Success | Default

  datatype Meta = Meta(text: string, tone: Tone)

  const StatusMap: map<string, Meta> := map[
    Created := Meta("New Request", Warning),
    Assigned := Meta("Assigned", Info),
    InProgress := Meta("In Progress", Info),
    Completed := Meta("Completed", Success),
    Cancelled := Meta("Cancelled", Default)
  ]

  /** `statusMap[status] || { label: status, tone: "default" }`. */
  function MetaFor(status: string): Meta {
    if status in StatusMap then StatusMap[status] else Meta(status, Default)
  }

  /** Each of the five known statuses gets its listed label and tone. */
  lemma KnownStatusMeta()
    ensures MetaFor(Created) == Meta("New Request", Warning)
    ensures MetaFor(Assigned) == Meta("Assigned", Info)
    ensures MetaFor(InProgress) == Meta("In Progress", Info)
    ensures MetaFor(Completed) == Meta("Completed", Success)
    ensures MetaFor(Cancelled) == Meta("Cancelled", Default)
  {
  }

  /** Any other status is shown as itself, in the default tone. */
  lemma UnknownStatusMeta(status: string)
    requires status !in {Created, Assigned, InProgress, Completed, Cancelled}
    ensures MetaFor(status) == Meta(status, Default)
  {
    assert StatusMap.Keys == {Created, Assigned, InProgress, Completed, Cancelled};
  }

  /** Only a status that is itself empty gets an empty label. */
  lemma LabelEmptyOnlyForEmptyStatus(status: string)
    ensures MetaFor(status).text == "" <==> status == ""
  {
    assert "" !in StatusMap;
  }

  /** The string a `tone` field holds. */
  function ToneName(t: Tone): string {
    match t
    case Warning => "warning"
    case Info => "info"
    case Success => "success"
    case Default => "default"
  }

  /** The text of the card's status chip. The card hands `meta.label` to the
      shared badge as children, but that badge renders only its `status` prop,
      which the card sets to the tone: the label is computed and never shown. */
  function ChipText(status: string): (text: string)
    ensures text in {"warning", "info", "success", "default"}
    ensures text == "default" <==> status == Cancelled || status !in StatusMap
  {
    ToneName(MetaFor(status).tone)
  }

  /** The keys of the shared badge's colour table; any other text gets the
      colour of "Pending". */
  const BadgeColourKeys: set<string> := {"Booked", "Assigned", "Completed", "Pending"}

  /** The chip shows the tone word of each known status, so ASSIGNED and
      IN_PROGRESS read alike; for a known status it never shows the label, and
      it always falls back to the "Pending" colour. */
  lemma ChipShowsTone(status: string)
    ensures ChipText(Created) == "warning" && ChipText(Completed) == "success" && ChipText(Cancelled) == "default"
    ensures ChipText(Assigned) == "info" && ChipText(InProgress) == "info"
    ensures status in StatusMap ==> ChipText(status) != MetaFor(status).text
    ensures ChipText(status) !in BadgeColourKeys
  {
    KnownStatusMeta();
  }

  datatype CardAction = Accept | MarkComplete

  datatype ActionButton = ActionButton(action: CardAction, caption: string, disabled: bool)

  /** The buttons in the card's action row, in order. */
  function Buttons(status: string, loading: bool): (bs: seq<ActionButton>)
    ensures |bs| <= 1
    ensures (exists k | 0 <= k < |bs| :: bs[k].action == Accept) <==> status == Created
    ensures (exists k | 0 <= k < |bs| :: bs[k].action == MarkComplete) <==> status == Assigned || status == InProgress
    ensures forall k | 0 <= k < |bs| :: bs[k].disabled == loading
  {
    if status == Created then
      var b := ActionButton(Accept, if loading then "Accepting\U{2026}" else "Accept Job", loading);
      assert [b][0].action == Accept;
      [b]
    else if status == Assigned || status == InProgress then
      var b := ActionButton(MarkComplete, if loading then "Completing\U{2026}" else "Mark Complete", loading);
      assert [b][0].action == MarkComplete;
      [b]
    else
      []
  }

  /** COMPLETED, CANCELLED and every unknown status offer no action. */
  lemma NoActionsOutsideOpenStatuses(status: string, loading: bool)
    requires status != Created && status != Assigned && status != InProgress
    ensures Buttons(status, loading) == []
  {
  }

  /** While `loading` is set, every offered button is disabled and says so. */
  lemma LoadingDisablesActions(status: string)
    ensures forall b | b in Buttons(status, true) :: b.disabled && b.caption in {"Accepting\U{2026}", "Completing\U{2026}"}
  {
  }
}
