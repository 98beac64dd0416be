/**
 * The dashboard's display tables: the style of each pipeline status, and
 * the colour and label a score is shown with. Scores are JavaScript
 * numbers, modelled as reals.
 */
module FrontendConstants {
  import ScoringRubrics

  /** An entry of `STATUS_CONFIG`: the label and the two CSS colours. */
  datatype StatusStyle = StatusStyle(text: string, color: string, bgColor: string)

  /** `STATUS_CONFIG` */
  const StatusConfig: map<string, StatusStyle> := map[
    "new" := StatusStyle("New", "#9ca3af", "rgba(156, 163, 175, 0.15)"),
    "researching" := StatusStyle("Researching", "#3b82f6", "rgba(59, 130, 246, 0.15)"),
    "enriching" := StatusStyle("Enriching", "#8b5cf6", "rgba(139, 92, 246, 0.15)"),
    "scoring" := StatusStyle("Scoring", "#a855f7", "rgba(168, 85, 247, 0.15)"),
    "scoring_complete" := StatusStyle("Scored", "#06b6d4", "rgba(6, 182, 212, 0.15)"),
    "drafting" := StatusStyle("Drafting", "#14b8a6", "rgba(20, 184, 166, 0.15)"),
    "drafting_complete" := StatusStyle("Drafted", "#06b6d4", "rgba(6, 182, 212, 0.15)"),
    "human_review" := StatusStyle("Needs Review", "#f59e0b", "rgba(245, 158, 11, 0.15)"),
    "approved" := StatusStyle("Approved", "#22c55e", "rgba(34, 197, 94, 0.15)"),
    "rejected" := StatusStyle("Rejected", "#ef4444", "rgba(239, 68, 68, 0.15)"),
    "sent" := StatusStyle("Sent", "#22c55e", "rgba(34, 197, 94, 0.15)"),
    "failed" := StatusStyle("Failed", "#ef4444", "rgba(239, 68, 68, 0.15)")
  ]

  /** The statuses a lead goes through in the pipeline. */
  const PipelineStatuses: set<string> := {
    "new", "researching", "enriching", "scoring", "scoring_complete", "drafting", "drafting_complete",
    "human_review", "approved", "rejected", "sent", "failed"}

  /** The table styles exactly the twelve pipeline statuses. */
  lemma StatusConfigCovers()
    ensures StatusConfig.Keys == PipelineStatuses
  {
  }

  /** Every entry of the table has a label to show. */
  lemma StatusLabelsGiven(s: string)
    requires s in StatusConfig
    ensures StatusConfig[s].text != ""
  {
  }

  const Green := "#22c55e"
  const Amber := "#f59e0b"
  const Red := "#ef4444"

  /** `getScoreColor` */
  function ScoreColor(score: real): (c: string)
    ensures c == Green <==> score >= 70.0
    ensures c == Amber <==> 40.0 <= score < 70.0
    ensures c == Red <==> score < 40.0
  {
    if score >= 70.0 then Green
    else if score >= 40.0 then Amber
    else Red
  }

  /** `getScoreLabel` */
  function ScoreLabel(score: real): (l: string)
    ensures l == "Qualified" <==> score >= 70.0
    ensures l == "Borderline" <==> 40.0 <= score < 70.0
    ensures l == "Low" <==> score < 40.0
  {
    if score >= 70.0 then "Qualified"
    else if score >= 40.0 then "Borderline"
    else "Low"
  }

  /** The colour each label is shown in. */
  function LabelColor(l: string): string {
    if l == "Qualified" then Green else if l == "Borderline" then Amber else Red
  }

  /** The label's place on the scale Low < Borderline < Qualified. */
  function LabelRank(l: string): nat {
    if l == "Qualified" then 2 else if l == "Borderline" then 1 else 0
  }

  /** A score's colour is always its label's colour. */
  lemma ColorMatchesLabel(score: real)
    ensures ScoreColor(score) == LabelColor(ScoreLabel(score))
  {
  }

  /** A higher score never gets a lower label. */
  lemma LabelMonotone(a: real, b: real)
    requires a <= b
    ensures LabelRank(ScoreLabel(a)) <= LabelRank(ScoreLabel(b))
  {
  }

  /**
   * On the backend's whole-number scores, the dashboard calls a lead
   * "Qualified" exactly when the router would consider sending it
   * (score at least QUALIFICATION_THRESHOLD), and every lead the router
   * auto-rejects (score below AUTO_REJECT_THRESHOLD) is shown as "Low".
   */
  lemma QualifiedAtThreshold(score: int)
    ensures ScoreLabel(score as real) == "Qualified" <==> score >= ScoringRubrics.QualificationThreshold
    ensures ScoreColor(score as real) == Green <==> score >= ScoringRubrics.QualificationThreshold
    ensures score < ScoringRubrics.AutoRejectThreshold ==> ScoreLabel(score as real) == "Low"
  {
  }
}
