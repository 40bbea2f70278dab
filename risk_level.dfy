/** The risk-tier classifier: maps the (optional) RugCheck report to one of
    four tiers. RugCheck scores grow with risk (0 is best). */
module RiskLevel {
  import opened Optional
  import opened Reports

  datatype RiskLevel = High | Medium | Low | Clean

  /** Orders the tiers from least to most severe. */
  function Severity(level: RiskLevel): nat {
    match level
    case Clean => 0
    case Low => 1
    case Medium => 2
    case High => 3
  }

  const HighScore: int := 5000
  const MediumScore: int := 2000
  const LowScore: int := 500

  /** The score part of the classifier: the thresholds from the top down. */
  function ScoreTier(score: int): RiskLevel {
    if score >= HighScore then High
    else if score >= MediumScore then Medium
    else if score >= LowScore then Low
    else Clean
  }

  /** The classifier: no report at all gives Medium, a rugged report gives
      High, otherwise the score decides, a missing score counting as 0. */
  function DetermineRiskLevel(rugCheck: Option<RugCheckReport>): RiskLevel {
    if rugCheck.None? then Medium
    else if rugCheck.value.rugged == Some(true) then High
    else ScoreTier(rugCheck.value.score.GetOr(0))
  }

  lemma AbsentReportIsMedium()
    ensures DetermineRiskLevel(None) == Medium
  {
  }

  /** A rugged report is High whatever its score, including 0 or none. */
  lemma RuggedOverridesScore(report: RugCheckReport, score: Option<int>)
    requires report.rugged == Some(true)
    ensures DetermineRiskLevel(Some(report.(score := score))) == High
  {
  }

  lemma MissingScoreCountsAsZero(report: RugCheckReport)
    requires report.score.None?
    ensures DetermineRiskLevel(Some(report)) == DetermineRiskLevel(Some(report.(score := Some(0))))
  {
  }

  /** A present, unrugged report is classified by its score alone;
      `rugged` missing and `rugged == false` both count as unrugged. */
  lemma UnruggedUsesScore(report: RugCheckReport)
    requires report.rugged != Some(true)
    ensures DetermineRiskLevel(Some(report)) == ScoreTier(report.score.GetOr(0))
  {
  }

  /** Each tier is exactly one band of scores. */
  lemma ScoreBands(score: int)
    ensures ScoreTier(score) == High <==> score >= 5000
    ensures ScoreTier(score) == Medium <==> 2000 <= score < 5000
    ensures ScoreTier(score) == Low <==> 500 <= score < 2000
    ensures ScoreTier(score) == Clean <==> score < 500
  {
  }

  lemma BoundaryScores()
    ensures ScoreTier(499) == Clean && ScoreTier(500) == Low
    ensures ScoreTier(1999) == Low && ScoreTier(2000) == Medium
    ensures ScoreTier(4999) == Medium && ScoreTier(5000) == High
  {
  }

  /** A higher score is never a less severe tier. */
  lemma MonotoneInScore(s1: int, s2: int)
    requires s1 <= s2
    ensures Severity(ScoreTier(s1)) <= Severity(ScoreTier(s2))
  {
  }

  /** A rugged report is at least as severe as any report. */
  lemma RuggedIsMostSevere(rugged: RugCheckReport, other: Option<RugCheckReport>)
    requires rugged.rugged == Some(true)
    ensures Severity(DetermineRiskLevel(other)) <= Severity(DetermineRiskLevel(Some(rugged)))
  {
  }
}
