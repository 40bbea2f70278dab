/** The profile aggregator: merges the optional RugCheck report and the
    optional DexScreener pair into one flat token profile, and derives the
    ordered list of human-readable risk findings. */
module TokenData {
  import opened Optional
  import opened Js
  import opened Reports
  import opened FindingText

  /** The two floating-point conversions the aggregator calls, left
      uninterpreted: `parseFloat` on the price string and `toFixed(1)` on
      the holder concentration. */
  datatype NumberFormat = NumberFormat(parseFloat: string -> real, toFixed1: real -> string)

  /** The merged profile; `risks` is the ordered list of findings. */
  datatype TokenProfile = TokenProfile(
    name: string,
    symbol: string,
    price: real,
    marketCap: real,
    liquidity: real,
    volume24h: real,
    priceChange24h: real,
    riskScore: int,
    risks: seq<string>,
    rugged: bool,
    topHolderConcentration: real,
    hasMintAuthority: bool,
    hasFreezeAuthority: bool)

  /** How many holders from the head of the list the concentration sums. */
  const TopHolderCount: nat := 10
  /** The concentration (a percentage) above which a finding is emitted. */
  const ConcentrationLimit: real := 50.0

  // ---------------------------------------------------------------------
  // Findings

  /** Only "danger" and "warn" risks of the report become findings. */
  predicate IsReported(risk: RugCheckRisk) {
    risk.level == "danger" || risk.level == "warn"
  }

  function Describe(risk: RugCheckRisk): string {
    risk.name + ": " + risk.description
  }

  /** The findings the report's own risks contribute, in input order: what
      the `forEach` with its conditional `push` leaves behind. */
  function ReportFindings(risks: seq<RugCheckRisk>): (found: seq<string>)
    ensures |found| <= |risks|
  {
    if risks == [] then []
    else
      var last := risks[|risks| - 1];
      ReportFindings(risks[..|risks| - 1]) + (if IsReported(last) then [Describe(last)] else [])
  }

  function RisksOf(rugCheck: Option<RugCheckReport>): seq<RugCheckRisk> {
    if rugCheck.Some? && rugCheck.value.risks.Some? then rugCheck.value.risks.value else []
  }

  predicate HasMintAuthority(rugCheck: Option<RugCheckReport>) {
    rugCheck.Some? && Truthy(rugCheck.value.mintAuthority)
  }

  predicate HasFreezeAuthority(rugCheck: Option<RugCheckReport>) {
    rugCheck.Some? && Truthy(rugCheck.value.freezeAuthority)
  }

  /** `reduce((acc, h) => acc + h.pct, 0)`: a left fold, so the last holder is added last. */
  function SumPct(holders: seq<TopHolder>): real {
    if holders == [] then 0.0
    else SumPct(holders[..|holders| - 1]) + holders[|holders| - 1].pct
  }

  /** The holders `slice(0, 10)` keeps: the first ten as received, or all of them. */
  function FirstHolders(holders: seq<TopHolder>): (first: seq<TopHolder>)
    ensures |first| <= TopHolderCount
    ensures first <= holders
    ensures |first| == TopHolderCount || first == holders
  {
    if |holders| <= TopHolderCount then holders else holders[..TopHolderCount]
  }

  /** Sum of `pct` over the first ten holders, 0 when the report or its
      holder list is missing. */
  function TopHolderConcentration(rugCheck: Option<RugCheckReport>): real {
    if rugCheck.Some? && rugCheck.value.topHolders.Some?
    then SumPct(FirstHolders(rugCheck.value.topHolders.value))
    else 0.0
  }

  /** The specification of the findings list: report findings, then the
      mint warning, then the freeze warning, then the concentration warning,
      each only when its condition holds. */
  function Findings(rugCheck: Option<RugCheckReport>, num: NumberFormat): seq<string> {
    var pct := TopHolderConcentration(rugCheck);
    ReportFindings(RisksOf(rugCheck))
    + (if HasMintAuthority(rugCheck) then [MintWarning] else [])
    + (if HasFreezeAuthority(rugCheck) then [FreezeWarning] else [])
    + (if pct > ConcentrationLimit then [ConcentrationWarning(num.toFixed1(pct))] else [])
  }

  // ---------------------------------------------------------------------
  // Profile fields

  function TokenMetaName(rugCheck: Option<RugCheckReport>): Option<string> {
    if rugCheck.Some? && rugCheck.value.tokenMeta.Some? then Some(rugCheck.value.tokenMeta.value.name) else None
  }

  function TokenMetaSymbol(rugCheck: Option<RugCheckReport>): Option<string> {
    if rugCheck.Some? && rugCheck.value.tokenMeta.Some? then Some(rugCheck.value.tokenMeta.value.symbol) else None
  }

  function BaseTokenName(dex: Option<DexScreenerPair>): Option<string> {
    if dex.Some? && dex.value.baseToken.Some? then Some(dex.value.baseToken.value.name) else None
  }

  function BaseTokenSymbol(dex: Option<DexScreenerPair>): Option<string> {
    if dex.Some? && dex.value.baseToken.Some? then Some(dex.value.baseToken.value.symbol) else None
  }

  function ProfileName(rugCheck: Option<RugCheckReport>, dex: Option<DexScreenerPair>): string {
    Or(TokenMetaName(rugCheck), Or(BaseTokenName(dex), "Unknown"))
  }

  function ProfileSymbol(rugCheck: Option<RugCheckReport>, dex: Option<DexScreenerPair>): string {
    Or(TokenMetaSymbol(rugCheck), Or(BaseTokenSymbol(dex), "UNKNOWN"))
  }

  /** `priceUsd ? parseFloat(priceUsd) : 0`: an empty price string gives 0. */
  function ProfilePrice(dex: Option<DexScreenerPair>, num: NumberFormat): real {
    if dex.Some? && Truthy(dex.value.priceUsd) then num.parseFloat(dex.value.priceUsd.value) else 0.0
  }

  function MarketCapOf(dex: Option<DexScreenerPair>): Option<real> {
    if dex.Some? then dex.value.marketCap else None
  }

  function FdvOf(dex: Option<DexScreenerPair>): Option<real> {
    if dex.Some? then dex.value.fdv else None
  }

  function LiquidityUsdOf(dex: Option<DexScreenerPair>): Option<real> {
    if dex.Some? && dex.value.liquidity.Some? then Some(dex.value.liquidity.value.usd) else None
  }

  function Volume24hOf(dex: Option<DexScreenerPair>): Option<real> {
    if dex.Some? && dex.value.volume.Some? then Some(dex.value.volume.value.h24) else None
  }

  function PriceChange24hOf(dex: Option<DexScreenerPair>): Option<real> {
    if dex.Some? && dex.value.priceChange.Some? then Some(dex.value.priceChange.value.h24) else None
  }

  function ScoreOf(rugCheck: Option<RugCheckReport>): Option<int> {
    if rugCheck.Some? then rugCheck.value.score else None
  }

  function RuggedOf(rugCheck: Option<RugCheckReport>): Option<bool> {
    if rugCheck.Some? then rugCheck.value.rugged else None
  }

  /** The profile as a value: what `formatTokenData` returns. */
  function TokenProfileOf(rugCheck: Option<RugCheckReport>, dex: Option<DexScreenerPair>, num: NumberFormat): TokenProfile {
    TokenProfile(
      name := ProfileName(rugCheck, dex),
      symbol := ProfileSymbol(rugCheck, dex),
      price := ProfilePrice(dex, num),
      marketCap := Coalesce(MarketCapOf(dex), Coalesce(FdvOf(dex), 0.0)),
      liquidity := Coalesce(LiquidityUsdOf(dex), 0.0),
      volume24h := Coalesce(Volume24hOf(dex), 0.0),
      priceChange24h := Coalesce(PriceChange24hOf(dex), 0.0),
      riskScore := Coalesce(ScoreOf(rugCheck), 0),
      risks := Findings(rugCheck, num),
      rugged := Coalesce(RuggedOf(rugCheck), false),
      topHolderConcentration := TopHolderConcentration(rugCheck),
      hasMintAuthority := HasMintAuthority(rugCheck),
      hasFreezeAuthority := HasFreezeAuthority(rugCheck))
  }

  /** `formatTokenData`: accumulates the findings step by step (a loop over
      the report's risks, then the conditional pushes) and builds the profile.
      The result is the specified profile. */
  method FormatTokenData(rugCheck: Option<RugCheckReport>, dex: Option<DexScreenerPair>, num: NumberFormat)
    returns (profile: TokenProfile)
    ensures profile == TokenProfileOf(rugCheck, dex, num)
  {
    var risks: seq<string> := [];
    if rugCheck.Some? && rugCheck.value.risks.Some? {
      var reportRisks := rugCheck.value.risks.value;
      var i := 0;
      while i < |reportRisks|
        invariant 0 <= i <= |reportRisks|
        invariant risks == ReportFindings(reportRisks[..i])
      {
        var risk := reportRisks[i];
        if risk.level == "danger" || risk.level == "warn" {
          risks := risks + [risk.name + ": " + risk.description];
        }
        assert reportRisks[..i + 1][..i] == reportRisks[..i];
        i := i + 1;
      }
      assert reportRisks[..|reportRisks|] == reportRisks;
    }
    assert risks == ReportFindings(RisksOf(rugCheck));

    if rugCheck.Some? && Truthy(rugCheck.value.mintAuthority) {
      risks := risks + [MintWarning];
    }
    if rugCheck.Some? && Truthy(rugCheck.value.freezeAuthority) {
      risks := risks + [FreezeWarning];
    }

    var topHolderPct := TopHolderConcentration(rugCheck);
    if topHolderPct > ConcentrationLimit {
      risks := risks + [ConcentrationWarning(num.toFixed1(topHolderPct))];
    }

    assert risks == Findings(rugCheck, num);
    // The remaining fields are single expressions over the two reports.
    profile := TokenProfileOf(rugCheck, dex, num).(risks := risks, topHolderConcentration := topHolderPct);
  }
}
