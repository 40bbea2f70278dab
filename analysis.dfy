/** The two results the analysis endpoint combines: the aggregated profile
    and the risk tier, both computed from the same pair of upstream reports. */
module Analysis {
  import opened Optional
  import opened Reports
  import opened FindingText
  import opened RiskLevel
  import opened TokenData

  /** For a present report the tier is decided by the profile's `rugged`
      and `riskScore` fields alone. */
  lemma PresentReportTierFollowsProfile(report: RugCheckReport, dex: Option<DexScreenerPair>, num: NumberFormat)
    ensures var p := TokenProfileOf(Some(report), dex, num);
      DetermineRiskLevel(Some(report)) == (if p.rugged then High else ScoreTier(p.riskScore))
  {
  }

  /** Without a report the profile carries score 0 and rugged false, which
      the score thresholds would call Clean, yet the tier is Medium: the
      tier is not a function of the profile in this case. */
  lemma AbsentReportIsNotClean(dex: Option<DexScreenerPair>, num: NumberFormat)
    ensures var p := TokenProfileOf(None, dex, num);
      && !p.rugged && p.riskScore == 0 && ScoreTier(p.riskScore) == Clean
      && DetermineRiskLevel(None) == Medium
  {
  }

  /** No RugCheck report, a DexScreener pair with market data: names and
      market fields come from the pair, risk fields are defaults, no findings. */
  lemma MarketOnlyScenario(num: NumberFormat)
    ensures var pair := DexScreenerPair("solana", "raydium", "", "pair", Some(TokenRef("mint", "Pepe", "PEPE")),
        TokenRef("sol", "Wrapped SOL", "SOL"), "0.00000002", Some("0.0000034"), Some(Liquidity(50000.0, 0.0, 0.0)),
        None, Some(1000000.0), Some(Volume(200000.0)), Some(PriceChange(0.0, -12.5)));
      var p := TokenProfileOf(None, Some(pair), num);
      && p == TokenProfile("Pepe", "PEPE", num.parseFloat("0.0000034"), 1000000.0, 50000.0, 200000.0, -12.5,
                           0, [], false, 0.0, false, false)
      && DetermineRiskLevel(None) == Medium
  {
  }

  /** A rugged report with score 6000 and a mint authority, no pair: High,
      the mint flag and its warning, price and market cap 0. */
  lemma RuggedMintScenario(num: NumberFormat)
    ensures var report := BareReport.(score := Some(6000), rugged := Some(true), mintAuthority := Some("Abc"));
      var p := TokenProfileOf(Some(report), None, num);
      && DetermineRiskLevel(Some(report)) == High
      && p.hasMintAuthority && p.risks == [MintWarning]
      && p.price == 0.0 && p.marketCap == 0.0 && p.riskScore == 6000 && p.rugged
  {
  }
}
