# ClawdScan risk aggregation and classification, in Dafny

ClawdScan's analysis endpoint takes a Solana token address, asks two upstream
services about it (a RugCheck risk report and a DexScreener trading pair,
either of which may be missing), merges the two into one flat token profile
and classifies the token into a risk tier: `high`, `medium`, `low` or `clean`.
This project models that merge and that classification, the only decision
logic of the endpoint, and proves what they promise.

Modules:

- `Optional` — `Option<T>`; `None` stands for both JavaScript `null` and `undefined`.
- `Js` — the three operators the code reads optional fields with, kept apart:
  `Truthy` (`!!s`, false for a missing or empty string), `Or` (`a || b`, skips
  the empty string) and `Coalesce` (`a ?? b`, skips only a missing value, so
  `0` is kept).
- `Reports` — the `RugCheckReport` and `DexScreenerPair` shapes, every optional
  JSON field an `Option`.
- `RiskLevel` — `DetermineRiskLevel`, with its score part `ScoreTier`: no
  report gives `Medium`; a rugged report gives `High`; otherwise the score
  (missing counts as 0) is compared with 5000, 2000 and 500 from the top down.
- `FindingText` — the fixed finding texts (mint warning, freeze warning,
  concentration warning) and the facts that tell them apart.
- `TokenData` — the aggregator. `TokenProfileOf` is the profile as a value,
  built from one small function per field; `Findings` is the specification of
  the ordered findings list; `FormatTokenData` is the imperative procedure,
  which accumulates the findings with a loop over the report's risks followed
  by the conditional pushes, and is proved to return `TokenProfileOf`.
- `TokenDataLemmas` — the properties of the aggregator.
- `Analysis` — how the tier and the profile relate, and two end-to-end scenarios.

Numbers: the RugCheck score is an `int`; holder percentages and market
numbers are `real`, so the holder sum is exact. `parseFloat` (price) and
`toFixed(1)` (concentration text) are the two fields of a `NumberFormat`
parameter and stay uninterpreted.

Two behaviours of the code that the model follows deliberately:

- With no RugCheck report the tier is `medium`, although the profile then
  shows score 0 and unrugged
  (`RiskLevel.AbsentReportIsMedium`, `Analysis.AbsentReportIsNotClean`).
- The authority flags are the truthiness of the authority strings, so an
  empty string counts as "no authority", not only `null`
  (`TokenDataLemmas.EmptyAuthorityIsDisabled`).

## Model

| member | source | states |
|---|---|---|
| `RiskLevel.AbsentReportIsMedium` | app/api/analyze/route.ts:99-100 | with no RugCheck report the tier is Medium |
| `RiskLevel.RuggedOverridesScore` | app/api/analyze/route.ts:102-103 | a rugged report is High whatever its score, including 0 or none |
| `RiskLevel.MissingScoreCountsAsZero` | app/api/analyze/route.ts:106 | a report without a score is classified as one with score 0 |
| `RiskLevel.UnruggedUsesScore` | app/api/analyze/route.ts:103-111 | a present report whose `rugged` is false or missing is classified by its score alone |
| `RiskLevel.ScoreBands` | app/api/analyze/route.ts:108-111 | each tier is exactly one score band: High iff >= 5000, Medium iff in [2000, 5000), Low iff in [500, 2000), Clean iff < 500 |
| `RiskLevel.BoundaryScores` | app/api/analyze/route.ts:108-111 | 499 is Clean and 500 Low, 1999 Low and 2000 Medium, 4999 Medium and 5000 High |
| `RiskLevel.MonotoneInScore` | app/api/analyze/route.ts:108-111 | a higher score is never a less severe tier |
| `RiskLevel.RuggedIsMostSevere` | app/api/analyze/route.ts:99-111 | no report, present or absent, is more severe than a rugged one |
| `FindingText.MintWarningFacts` | app/api/analyze/route.ts:127 | the mint warning has no colon and starts with 'M' |
| `FindingText.FreezeWarningFacts` | app/api/analyze/route.ts:130 | the freeze warning has no colon and starts with 'F' |
| `FindingText.ConcentrationWarningIsDistinct` | app/api/analyze/route.ts:127-136 | the concentration warning equals neither authority warning, whatever the percentage text |
| `TokenData.ReportFindings` | app/api/analyze/route.ts:117-123 | the report's risks yield at most one finding each |
| `TokenData.FirstHolders` | app/api/analyze/route.ts:134 | `slice(0, 10)` keeps a prefix of the holder list of length 10, or the whole list when shorter |
| `TokenData.FormatTokenData` | app/api/analyze/route.ts:114-154 | the loop-and-push procedure returns exactly the specified profile, findings included |
| `TokenDataLemmas.ReportFindingsAppend` | app/api/analyze/route.ts:117-123 | findings of concatenated risk lists are the concatenated findings: input order is kept |
| `TokenDataLemmas.ReportFindingsMembership` | app/api/analyze/route.ts:118-121 | a string is a report finding iff some danger or warn risk has it as `name: description` |
| `TokenDataLemmas.ReportFindingsAllReported` | app/api/analyze/route.ts:118-121 | when every risk is danger or warn, the k-th finding describes the k-th risk |
| `TokenDataLemmas.ReportFindingsNoneReported` | app/api/analyze/route.ts:119 | risks of other levels give no findings |
| `TokenDataLemmas.ReportFindingsHaveColon` | app/api/analyze/route.ts:120 | every report finding contains the colon of `name: description` |
| `TokenDataLemmas.WarningsAreNotReportFindings` | app/api/analyze/route.ts:120-130 | no report finding equals the mint or the freeze warning |
| `TokenDataLemmas.AuthorityFlagsMatchFindings` | app/api/analyze/route.ts:126-131 | `hasMintAuthority` holds iff the mint warning is among the findings; likewise for freeze |
| `TokenDataLemmas.FindingsCount` | app/api/analyze/route.ts:115-137 | each finding whose condition holds adds exactly one entry: nothing deduplicated or dropped |
| `TokenDataLemmas.FindingsOrder` | app/api/analyze/route.ts:117-128 | two reported risks and an enabled mint authority give [risk 1, risk 2, mint warning] |
| `TokenDataLemmas.SumPctAppend` | app/api/analyze/route.ts:134 | the holder fold is additive over concatenation |
| `TokenDataLemmas.SumPctNonNegative` | app/api/analyze/route.ts:134 | non-negative shares sum to a non-negative total |
| `TokenDataLemmas.ConcentrationIgnoresLaterHolders` | app/api/analyze/route.ts:134 | the concentration is the sum of the first ten holders as received; later holders, however large, are ignored (no sorting) |
| `TokenDataLemmas.ConcentrationBounds` | app/api/analyze/route.ts:134 | with non-negative shares the concentration is between 0 and the sum over all holders |
| `TokenDataLemmas.ConcentrationThresholdIsStrict` | app/api/analyze/route.ts:135-137 | a concentration of exactly 50 gives no finding; 50.5 gives the concentration warning |
| `TokenDataLemmas.NameAndSymbolPrecedence` | app/api/analyze/route.ts:140-141 | name and symbol come from the first non-empty of RugCheck token metadata, DexScreener base token, default; never empty |
| `TokenDataLemmas.EmptyNameFallsThrough` | app/api/analyze/route.ts:140 | the logical-or fallback skips an empty metadata name in favour of the pair's name |
| `TokenDataLemmas.MarketFieldsFromPair` | app/api/analyze/route.ts:143-146 | market cap is the pair's market cap if present (0 included), else its FDV if present, else 0; liquidity, volume and price change are the pair's or 0 |
| `TokenDataLemmas.RiskFieldsFromReport` | app/api/analyze/route.ts:134-149 | score and rugged are the report's or 0 and false; a missing holder list gives concentration 0 and the same findings as an empty list, so no concentration finding |
| `TokenDataLemmas.EmptyPriceIsZero` | app/api/analyze/route.ts:142 | a missing or empty price string gives price 0 |
| `TokenDataLemmas.FieldsFollowTheirSource` | app/api/analyze/route.ts:142-152 | market fields depend only on the pair; score, rugged, findings, concentration and authority flags only on the report |
| `TokenDataLemmas.BothAbsentGivesDefaults` | app/api/analyze/route.ts:139-153 | with both reports missing the profile is all neutral defaults and has no findings |
| `TokenDataLemmas.EmptyAuthorityIsDisabled` | app/api/analyze/route.ts:126-152 | an empty authority string counts as disabled and yields no warning |
| `Analysis.PresentReportTierFollowsProfile` | app/api/analyze/route.ts:103-111 | for a present report the tier is decided by the profile's `rugged` and `riskScore` |
| `Analysis.AbsentReportIsNotClean` | app/api/analyze/route.ts:100 | with no report the profile shows score 0, unrugged, yet the tier is Medium, not Clean |
| `Analysis.MarketOnlyScenario` | app/api/analyze/route.ts:139-153 | market-only input: names and market numbers from the pair, risk defaults, no findings, tier Medium |
| `Analysis.RuggedMintScenario` | app/api/analyze/route.ts:99-154 | rugged report with score 6000 and a mint authority, no pair: High, mint flag and warning, price and market cap 0 |

## Left out

- Fetching the two reports (`fetchRugCheckData`, `fetchDexScreenerData`): HTTP and JSON parsing; their results are the two `Option` inputs. Taking the first element of DexScreener's pair array is part of that boundary.
- The `POST` handler: request parsing, the 400 and 500 responses, running both fetches concurrently, building the prompt and the call to the text-generation model.
- Floating point: `parseFloat` and `toFixed(1)` are uninterpreted parameters; holder shares and market numbers are exact reals, so rounding in the holder sum, `NaN` and infinities are not modelled. The score is an integer.
- The report field `markets` is not modelled: the aggregator never reads it. These fields are carried in the datatypes but never read either: the report's `token`, `TokenMeta.uri`, `TopHolder.address` and `insider`, `RugCheckRisk.score`, the pair's `chainId`, `dexId`, `url`, `pairAddress`, `quoteToken` and `priceNative`, `Liquidity.base` and `quote`, and `PriceChange.h1`.
- JSON values of the wrong type (a string where a number is expected, a non-boolean `rugged`): the model takes each field at its declared type, with two exceptions. The pair's `baseToken` and `priceUsd` are declared required but are `Option` in the model, because the code guards them with optional chaining and truthiness.
- The presentation components (price and dollar formatting, colour thresholds that repeat the classifier) and the page markup.
