/** The fixed texts of the aggregator's own findings, and the facts about
    them that tell them apart from report-derived findings. */
module FindingText {

  // Each warning is written as a few short literals: the same string, in a
  // form whose characters the verifier can inspect cheaply.
  const MintWarning: string := "Mint Authority " + "enabled - Team " + "can create " + "unlimited tokens"
  const FreezeWarning: string := "Freeze Authority " + "enabled - Team " + "can freeze " + "your tokens"

  /** The concentration finding; `pctText` is the percentage as `toFixed(1)` prints it. */
  function ConcentrationWarning(pctText: string): string {
    "Top 10 holders own " + pctText + "% of supply"
  }

  /** The mint warning contains no colon and starts with 'M'. */
  lemma MintWarningFacts()
    ensures ':' !in MintWarning && MintWarning[0] == 'M'
  {
  }

  /** The freeze warning contains no colon and starts with 'F'. */
  lemma FreezeWarningFacts()
    ensures ':' !in FreezeWarning && FreezeWarning[0] == 'F'
  {
  }

  /** The concentration finding is never one of the authority warnings. */
  lemma ConcentrationWarningIsDistinct(pctText: string)
    ensures ConcentrationWarning(pctText) != MintWarning
    ensures ConcentrationWarning(pctText) != FreezeWarning
  {
    MintWarningFacts();
    FreezeWarningFacts();
    assert ConcentrationWarning(pctText)[0] == 'T';
  }
}
