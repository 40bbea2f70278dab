/** What the aggregator promises: order and completeness of the findings,
    the agreement of the authority flags with their findings, the top-ten
    concentration, source precedence and the neutral defaults. */
module TokenDataLemmas {
  import opened Optional
  import opened Js
  import opened Reports
  import opened FindingText
  import opened TokenData

  // ---------------------------------------------------------------------
  // Report findings

  /** Filtering distributes over concatenation: findings keep input order. */
  lemma {:induction false} ReportFindingsAppend(a: seq<RugCheckRisk>, b: seq<RugCheckRisk>)
    ensures ReportFindings(a + b) == ReportFindings(a) + ReportFindings(b)
  {
    if b != [] {
      var init := b[..|b| - 1];
      assert (a + b)[..|a + b| - 1] == a + init;
      assert (a + b)[|a + b| - 1] == b[|b| - 1];
      ReportFindingsAppend(a, init);
    } else {
      assert a + b == a;
    }
  }

  /** A string is a report finding exactly when some danger or warn risk describes it. */
  lemma {:induction false} ReportFindingsMembership(risks: seq<RugCheckRisk>, f: string)
    ensures f in ReportFindings(risks) <==>
      exists i :: 0 <= i < |risks| && IsReported(risks[i]) && Describe(risks[i]) == f
  {
    if risks != [] {
      var init := risks[..|risks| - 1];
      ReportFindingsMembership(init, f);
      if exists i :: 0 <= i < |init| && IsReported(init[i]) && Describe(init[i]) == f {
        var i :| 0 <= i < |init| && IsReported(init[i]) && Describe(init[i]) == f;
        assert risks[i] == init[i];
      }
      if exists i :: 0 <= i < |risks| && IsReported(risks[i]) && Describe(risks[i]) == f {
        var i :| 0 <= i < |risks| && IsReported(risks[i]) && Describe(risks[i]) == f;
        if i < |init| {
          assert init[i] == risks[i];
        }
      }
    }
  }

  /** When every risk is danger or warn, each one gives exactly one finding, at its own position. */
  lemma {:induction false} ReportFindingsAllReported(risks: seq<RugCheckRisk>)
    requires forall i :: 0 <= i < |risks| ==> IsReported(risks[i])
    ensures |ReportFindings(risks)| == |risks|
    ensures forall k :: 0 <= k < |risks| ==> ReportFindings(risks)[k] == Describe(risks[k])
  {
    if risks != [] {
      ReportFindingsAllReported(risks[..|risks| - 1]);
    }
  }

  /** Risks of any other level contribute nothing. */
  lemma {:induction false} ReportFindingsNoneReported(risks: seq<RugCheckRisk>)
    requires forall i :: 0 <= i < |risks| ==> !IsReported(risks[i])
    ensures ReportFindings(risks) == []
  {
    if risks != [] {
      ReportFindingsNoneReported(risks[..|risks| - 1]);
    }
  }

  /** Every report finding contains the colon that joins name and description. */
  lemma {:induction false} ReportFindingsHaveColon(risks: seq<RugCheckRisk>)
    ensures forall f :: f in ReportFindings(risks) ==> ':' in f
  {
    if risks != [] {
      var last := risks[|risks| - 1];
      ReportFindingsHaveColon(risks[..|risks| - 1]);
      assert Describe(last)[|last.name|] == ':';
    }
  }

  /** No report finding can be mistaken for an authority warning. */
  lemma WarningsAreNotReportFindings(risks: seq<RugCheckRisk>)
    ensures MintWarning !in ReportFindings(risks)
    ensures FreezeWarning !in ReportFindings(risks)
  {
    ReportFindingsHaveColon(risks);
    MintWarningFacts();
    FreezeWarningFacts();
  }

  // ---------------------------------------------------------------------
  // Authority flags and their findings

  /** The mint flag of the profile holds exactly when the mint warning is
      among its findings; the same for freeze. */
  lemma AuthorityFlagsMatchFindings(rugCheck: Option<RugCheckReport>, dex: Option<DexScreenerPair>, num: NumberFormat)
    ensures var p := TokenProfileOf(rugCheck, dex, num);
      && (p.hasMintAuthority <==> MintWarning in p.risks)
      && (p.hasFreezeAuthority <==> FreezeWarning in p.risks)
  {
    var risks := RisksOf(rugCheck);
    WarningsAreNotReportFindings(risks);
    ConcentrationWarningIsDistinct(num.toFixed1(TopHolderConcentration(rugCheck)));
    MintWarningFacts();
    FreezeWarningFacts();
  }

  /** Every finding whose condition holds adds exactly one entry: nothing is
      deduplicated or dropped. */
  lemma FindingsCount(rugCheck: Option<RugCheckReport>, num: NumberFormat)
    ensures |Findings(rugCheck, num)| ==
      |ReportFindings(RisksOf(rugCheck))|
      + (if HasMintAuthority(rugCheck) then 1 else 0)
      + (if HasFreezeAuthority(rugCheck) then 1 else 0)
      + (if TopHolderConcentration(rugCheck) > 50.0 then 1 else 0)
  {
  }

  /** Two reported risks followed by an enabled mint authority give the two
      risk findings in order, then the mint warning. */
  lemma FindingsOrder(report: RugCheckReport, r1: RugCheckRisk, r2: RugCheckRisk, num: NumberFormat)
    requires IsReported(r1) && IsReported(r2)
    requires report.risks == Some([r1, r2])
    requires Truthy(report.mintAuthority) && !Truthy(report.freezeAuthority)
    requires report.topHolders.None?
    ensures Findings(Some(report), num) == [Describe(r1), Describe(r2), MintWarning]
  {
    ReportFindingsAllReported([r1, r2]);
  }

  // ---------------------------------------------------------------------
  // Top-holder concentration

  lemma {:induction false} SumPctAppend(a: seq<TopHolder>, b: seq<TopHolder>)
    ensures SumPct(a + b) == SumPct(a) + SumPct(b)
  {
    if b != [] {
      var init := b[..|b| - 1];
      assert (a + b)[..|a + b| - 1] == a + init;
      assert (a + b)[|a + b| - 1] == b[|b| - 1];
      SumPctAppend(a, init);
    } else {
      assert a + b == a;
    }
  }

  lemma {:induction false} SumPctNonNegative(holders: seq<TopHolder>)
    requires forall i :: 0 <= i < |holders| ==> holders[i].pct >= 0.0
    ensures SumPct(holders) >= 0.0
  {
    if holders != [] {
      SumPctNonNegative(holders[..|holders| - 1]);
    }
  }

  /** Holders after the tenth are ignored, however large their share: the
      list is summed in the order received, never sorted. */
  lemma ConcentrationIgnoresLaterHolders(report: RugCheckReport, first: seq<TopHolder>, later: seq<TopHolder>)
    requires |first| == 10
    ensures TopHolderConcentration(Some(report.(topHolders := Some(first + later)))) == SumPct(first)
  {
    assert FirstHolders(first + later) == first;
  }

  /** With non-negative shares the concentration lies between 0 and the
      sum over the whole holder list. */
  lemma ConcentrationBounds(report: RugCheckReport)
    requires report.topHolders.Some?
    requires forall i :: 0 <= i < |report.topHolders.value| ==> report.topHolders.value[i].pct >= 0.0
    ensures 0.0 <= TopHolderConcentration(Some(report)) <= SumPct(report.topHolders.value)
  {
    var holders := report.topHolders.value;
    var first := FirstHolders(holders);
    var rest := holders[|first|..];
    assert holders == first + rest;
    SumPctAppend(first, rest);
    SumPctNonNegative(first);
    SumPctNonNegative(rest);
  }

  /** A concentration of exactly 50 gives no finding; 50.5 gives one. */
  lemma ConcentrationThresholdIsStrict(num: NumberFormat)
    ensures Findings(Some(BareReport.(topHolders := Some([TopHolder("a", 25.0, false), TopHolder("b", 25.0, false)]))), num) == []
    ensures Findings(Some(BareReport.(topHolders := Some([TopHolder("a", 25.0, false), TopHolder("b", 25.5, false)]))), num)
      == [ConcentrationWarning(num.toFixed1(50.5))]
  {
    var h := [TopHolder("a", 25.0, false), TopHolder("b", 25.0, false)];
    assert h[..1] == [TopHolder("a", 25.0, false)];
    assert SumPct(h) == 50.0;
    var g := [TopHolder("a", 25.0, false), TopHolder("b", 25.5, false)];
    assert g[..1] == [TopHolder("a", 25.0, false)];
    assert SumPct(g) == 50.5;
  }

  // ---------------------------------------------------------------------
  // Source precedence and defaults

  /** Name and symbol: the RugCheck token metadata if non-empty, else the
      DexScreener base token if non-empty, else the literal default; never empty. */
  lemma NameAndSymbolPrecedence(rugCheck: Option<RugCheckReport>, dex: Option<DexScreenerPair>, num: NumberFormat)
    ensures var p := TokenProfileOf(rugCheck, dex, num);
      && p.name != "" && p.symbol != ""
      && p.name == (if Truthy(TokenMetaName(rugCheck)) then TokenMetaName(rugCheck).value
                    else if Truthy(BaseTokenName(dex)) then BaseTokenName(dex).value
                    else "Unknown")
      && p.symbol == (if Truthy(TokenMetaSymbol(rugCheck)) then TokenMetaSymbol(rugCheck).value
                      else if Truthy(BaseTokenSymbol(dex)) then BaseTokenSymbol(dex).value
                      else "UNKNOWN")
  {
  }

  /** `||` skips an empty token-metadata name in favour of the pair's name. */
  lemma EmptyNameFallsThrough(report: RugCheckReport, pair: DexScreenerPair, num: NumberFormat)
    requires report.tokenMeta.Some? && report.tokenMeta.value.name == ""
    requires pair.baseToken.Some? && pair.baseToken.value.name != ""
    ensures TokenProfileOf(Some(report), Some(pair), num).name == pair.baseToken.value.name
  {
  }

  /** Market fields of a present pair: `??` keeps a market cap of 0 rather
      than falling back to the FDV, the FDV is used only when the market cap
      is missing, and liquidity, volume and price change default to 0. */
  lemma MarketFieldsFromPair(pair: DexScreenerPair, rugCheck: Option<RugCheckReport>, num: NumberFormat)
    ensures var p := TokenProfileOf(rugCheck, Some(pair), num);
      && (pair.marketCap.Some? ==> p.marketCap == pair.marketCap.value)
      && (pair.marketCap.None? && pair.fdv.Some? ==> p.marketCap == pair.fdv.value)
      && (pair.marketCap.None? && pair.fdv.None? ==> p.marketCap == 0.0)
      && p.liquidity == (if pair.liquidity.Some? then pair.liquidity.value.usd else 0.0)
      && p.volume24h == (if pair.volume.Some? then pair.volume.value.h24 else 0.0)
      && p.priceChange24h == (if pair.priceChange.Some? then pair.priceChange.value.h24 else 0.0)
  {
  }

  /** Score and rugged flag of a present report, 0 and false when missing;
      a missing holder list gives concentration 0 and the same findings as an
      empty one, so no concentration finding. */
  lemma RiskFieldsFromReport(report: RugCheckReport, dex: Option<DexScreenerPair>, num: NumberFormat)
    ensures var p := TokenProfileOf(Some(report), dex, num);
      && p.riskScore == (if report.score.Some? then report.score.value else 0)
      && p.rugged == (report.rugged == Some(true))
      && (report.topHolders.None? ==>
            && p.topHolderConcentration == 0.0
            && p.risks == Findings(Some(report.(topHolders := Some([]))), num))
  {
  }

  /** An empty price string gives price 0; parseFloat is not consulted. */
  lemma EmptyPriceIsZero(pair: DexScreenerPair, rugCheck: Option<RugCheckReport>, num: NumberFormat)
    requires pair.priceUsd == Some("") || pair.priceUsd.None?
    ensures TokenProfileOf(rugCheck, Some(pair), num).price == 0.0
  {
  }

  /** Market fields come only from DexScreener; score, rugged, findings,
      concentration and authority flags come only from RugCheck. */
  lemma FieldsFollowTheirSource(
    rc1: Option<RugCheckReport>, rc2: Option<RugCheckReport>,
    dex1: Option<DexScreenerPair>, dex2: Option<DexScreenerPair>, num: NumberFormat)
    ensures var p, q := TokenProfileOf(rc1, dex1, num), TokenProfileOf(rc2, dex1, num);
      && p.price == q.price && p.marketCap == q.marketCap && p.liquidity == q.liquidity
      && p.volume24h == q.volume24h && p.priceChange24h == q.priceChange24h
    ensures var p, q := TokenProfileOf(rc1, dex1, num), TokenProfileOf(rc1, dex2, num);
      && p.riskScore == q.riskScore && p.rugged == q.rugged && p.risks == q.risks
      && p.topHolderConcentration == q.topHolderConcentration
      && p.hasMintAuthority == q.hasMintAuthority && p.hasFreezeAuthority == q.hasFreezeAuthority
  {
  }

  /** With both reports missing the profile is all neutral defaults. */
  lemma BothAbsentGivesDefaults(num: NumberFormat)
    ensures TokenProfileOf(None, None, num) ==
      TokenProfile("Unknown", "UNKNOWN", 0.0, 0.0, 0.0, 0.0, 0.0, 0, [], false, 0.0, false, false)
  {
  }

  /** An empty authority string is falsy: no flag and no warning. */
  lemma EmptyAuthorityIsDisabled(report: RugCheckReport, num: NumberFormat)
    requires report.mintAuthority == Some("") && report.freezeAuthority.None?
    ensures var p := TokenProfileOf(Some(report), None, num);
      !p.hasMintAuthority && !p.hasFreezeAuthority && MintWarning !in p.risks
  {
    AuthorityFlagsMatchFindings(Some(report), None, num);
  }
}
