/** The two upstream reports as the aggregation code reads them: the
    RugCheck token report and one DexScreener trading pair. */
module Reports {
  import opened Optional

  /** One risk entry of a RugCheck report; `level` is e.g. "danger", "warn" or "info". */
  datatype RugCheckRisk = RugCheckRisk(name: string, description: string, level: string, score: int)

  datatype TokenMeta = TokenMeta(name: string, symbol: string, uri: string)

  /** One entry of the report's holder list; `pct` is a percentage of supply. */
  datatype TopHolder = TopHolder(address: string, pct: real, insider: bool)

  /** A RugCheck report. Every field may be missing from the JSON. */
  datatype RugCheckReport = RugCheckReport(
    tokenMeta: Option<TokenMeta>,
    token: Option<string>,
    risks: Option<seq<RugCheckRisk>>,
    score: Option<int>,
    rugged: Option<bool>,
    topHolders: Option<seq<TopHolder>>,
    freezeAuthority: Option<string>,
    mintAuthority: Option<string>)

  /** A report in which every optional field is missing. */
  const BareReport: RugCheckReport :=
    RugCheckReport(None, None, None, None, None, None, None, None)

  datatype TokenRef = TokenRef(address: string, name: string, symbol: string)

  datatype Liquidity = Liquidity(usd: real, base: real, quote: real)

  datatype Volume = Volume(h24: real)

  datatype PriceChange = PriceChange(h1: real, h24: real)

  /** A DexScreener pair. `baseToken` and `priceUsd` are optional here because
      the code guards them (optional chaining, truthiness) before use. */
  datatype DexScreenerPair = DexScreenerPair(
    chainId: string,
    dexId: string,
    url: string,
    pairAddress: string,
    baseToken: Option<TokenRef>,
    quoteToken: TokenRef,
    priceNative: string,
    priceUsd: Option<string>,
    liquidity: Option<Liquidity>,
    fdv: Option<real>,
    marketCap: Option<real>,
    volume: Option<Volume>,
    priceChange: Option<PriceChange>)
}
