/** The recommendation shape shared by the rule-based fallback, the remote path and the forms. */
module Stack {

  /** One recommended technology: its name and why it fits. */
  datatype Technology = Technology(name: string, description: string)

  /** A complete stack: four technologies, auxiliary tools in display order, and a rationale. */
  datatype Recommendation = Recommendation(
    frontend: Technology,
    styling: Technology,
    backend: Technology,
    database: Technology,
    additionalTools: seq<Technology>,
    explanation: string)

  /**
   * What the result view relies on: each of the four technologies is named,
   * there is at least one tool and every tool is named, and there is a rationale.
   */
  predicate WellFormed(r: Recommendation)
  {
    && r.frontend.name != ""
    && r.styling.name != ""
    && r.backend.name != ""
    && r.database.name != ""
    && |r.additionalTools| > 0
    && (forall i :: 0 <= i < |r.additionalTools| ==> r.additionalTools[i].name != "")
    && r.explanation != ""
  }
}
