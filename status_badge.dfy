/** `StatusBadge`: which badge variant and label a lead status is shown with. */
module StatusBadge {
  import opened FrontendConstants

  /** The badge variants `StatusBadge` picks from. */
  datatype Variant = Secondary | Success | Destructive | Warning

  /**
   * The variant and label of `StatusBadge({status})`: the variant starts
   * as "secondary" and each `includes` test may overwrite it; the label is
   * the table's when the status has an entry, else the status itself.
   */
  method Badge(status: string) returns (variant: Variant, text: string)
    ensures variant == Success <==> status == "approved" || status == "sent"
    ensures variant == Destructive <==> status == "rejected" || status == "failed"
    ensures variant == Warning <==> status == "human_review"
    ensures variant == Secondary <==> status !in {"approved", "sent", "rejected", "failed", "human_review"}
    ensures status in StatusConfig ==> text == StatusConfig[status].text
    ensures status !in StatusConfig ==> text == status
  {
    var config := if status in StatusConfig then StatusConfig[status] else StatusStyle(status, "#9ca3af", "rgba(156, 163, 175, 0.15)");
    variant := Secondary;
    if status in ["approved", "sent"] { variant := Success; }
    if status in ["rejected", "failed"] { variant := Destructive; }
    if status in ["human_review"] { variant := Warning; }
    if status in ["new", "researching", "enriching", "scoring", "drafting"] { variant := Secondary; }
    text := config.text;
  }

  /** Every pipeline status is shown with its own non-empty label. */
  lemma PipelineLabels(status: string)
    requires status in PipelineStatuses
    ensures status in StatusConfig && StatusConfig[status].text != ""
  {
    StatusConfigCovers();
    StatusLabelsGiven(status);
  }
}
