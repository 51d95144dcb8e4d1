# Price-update pipeline of the Melon subgraph, in Dafny

This project models the handler that runs whenever the price oracle emits a `PriceUpdate`
event (`_handlePriceUpdate`, behind the one-line wrapper `handlePriceUpdate`). It also proves
properties of that model. The handler runs six stages in order:

1. **Rate gate.** A batch arriving less than 300 seconds after the last processed one is
   dropped.
2. **Price ingestion.** Every price of a known asset is recorded on the asset and in the
   asset's price history. The pass counts the known assets and the zero ("invalid") prices,
   and builds the asset→price and asset→decimals lookups. The process state's last update
   time moves to the batch timestamp.
3. **Holdings valuation.** For every fund of every version of the registry, each holding is
   valued at `amount * price / 10^decimals`, rounded down. The fund is flagged invalid when a
   non-empty holding has no price. Every holding still adds to its asset's network totals.
4. **Fund gate.** An invalid fund clears the network validity flag and is skipped. A valid
   fund gets:
   - the oracle's calculations recorded;
   - its valuation updated, with the daily share prices shifted;
   - its GAV added to the network total.
5. **Investor distribution.** The fund's GAV and NAV are split over its historical investors
   by shares, rounded down, and are zero when no shares are outstanding. The parts are added
   into each investor's totals for the batch.
6. **Network snapshot.** One record of the network GAV and its validity flag is written per
   batch.

The model is functional:

- **The entity store** is an immutable `Store` with one map per entity kind. Each map is
  keyed by the tuple the original builds its string ids from, for example
  `(fund, timestamp, asset)`.
- **Contract reads** are the `Chain` record of total functions, keyed by contract address.
  These are `getFundHoldings`, `performCalculations`, `totalSupply` and
  `getHistoricalInvestors`.
- **Every loop** is a prefix-recursive fold. Each fold's properties are proved by induction,
  against an independent reference definition: a set comprehension, a sum or a predicate.

Modules:

- `Types`: the address type, `Option`, powers of ten and floor division.
- `Entities`: the stored entities and their load-or-create readers.
- `PriceIngest`: stage 2.
- `Holdings`: stage 3.
- `Investors`: stage 5.
- `Funds`: stages 3–5 per fund, and the fold over funds.
- `PriceUpdate`: the whole handler.
- `Scenario`: a worked batch.

## Model

| member | source | states |
|---|---|---|
| PriceUpdate.HandlePriceUpdate | src/mappings/PriceSource.ts:28-36 | The run leaves the store exactly as it was if and only if the batch comes less than 300 seconds after the last processed one. A run that gets past the gate and commits sets the last update time to the batch timestamp and changes nothing else in the process state. |
| Scenario.GateDropsEarlyBatch | src/mappings/PriceSource.ts:33-36 | With the last update at 1000, a batch at 1200 is a no-op. |
| Scenario.GateLetsIntervalThrough | src/mappings/PriceSource.ts:33-36 | A batch exactly 300 seconds after the last one is processed, because the comparison is strict. |
| PriceIngest.Ingest | src/mappings/PriceSource.ts:56-97 | Ingestion creates and drops no asset, never changes an asset's decimals, and never counts more invalid prices than assets. |
| PriceIngest.IngestCounts | src/mappings/PriceSource.ts:56-86 | The asset count is the number of batch entries whose token is a known asset. The invalid count is the number of those entries with a zero price. The zero-price entries are among the counted ones. |
| PriceIngest.IngestLookups | src/mappings/PriceSource.ts:88-89 | Both lookups hold exactly the known assets the batch mentions; unknown tokens enter neither. The decimals lookup carries each asset's own decimals. |
| PriceIngest.IngestLastEntry | src/mappings/PriceSource.ts:64-84 | The last entry for a known asset decides its stored price, its last update time, its validity flag (false exactly for a zero price, with the price still stored as zero), its price-history entry and its looked-up price. |
| PriceIngest.IngestFrame | src/mappings/PriceSource.ts:56-84 | Assets the batch does not price keep their records. Price history gains exactly one entry per priced known asset at the batch timestamp, and every other entry is unchanged. |
| PriceUpdate.PriceUpdateRecorded | src/mappings/PriceSource.ts:41-94 | Every committed run past the gate carries the batch's price-update record, with the source and both counts, and the asset records and price history of the ingestion pass. |
| Holdings.ValueHolding | src/mappings/PriceSource.ts:154-169 | A holding record keeps the holding's amount. It is valid exactly when the amount is zero or the asset has a non-zero price. An invalid or zero-priced holding is worth zero. |
| Holdings.HoldingValueFloor | src/mappings/PriceSource.ts:158-163 | A holding's value is `amount * price / 10^decimals` rounded down: it lies within one unit of the exact scaled product. |
| Holdings.FundFlagIffAllPriced | src/mappings/PriceSource.ts:134-169 | The fund's flag ends false exactly when some non-empty holding has no price. The loop never stops early. |
| Holdings.HoldingRecordKeys | src/mappings/PriceSource.ts:174-177 | Holding records are added exactly for the fund's non-empty holdings at the batch timestamp. Records of other funds or other batches are unchanged. |
| Holdings.HoldingRecordValues | src/mappings/PriceSource.ts:141-177 | The record of a non-empty holding is the value of the last non-empty holding of that asset in the fund's list. |
| Holdings.NetworkAssetsAdditive | src/mappings/PriceSource.ts:179-198 | Each asset's network totals at the batch grow by the sum of the contributions of the fund's holdings of that asset, valid or not. The amount and value are added, funds are counted only for non-zero amounts, and invalid prices only for invalid holdings. |
| Holdings.NetworkAssetKeys | src/mappings/PriceSource.ts:179-198 | Network totals exist afterwards for exactly the previous keys plus every asset the fund holds, at the batch timestamp. Totals of other timestamps are unchanged. |
| Holdings.InvalidCountsFlagged | src/mappings/PriceSource.ts:190-197 | An asset's invalid count never exceeds its fund count. It is non-zero exactly when some holding of that asset is unpriced. |
| Funds.ProcessFund | src/mappings/PriceSource.ts:120-303 | Processing one fund keeps the set of funds and each fund's contracts. It writes only the fund-level entities; the process state, registry, versions, assets, price records and network history are unchanged. The network GAV never decreases, and the validity flag can only be cleared. |
| Funds.FundHoldingsCounted | src/mappings/PriceSource.ts:137-207 | A loaded fund's holdings are recorded and added into their assets' network totals whether or not the fund then passes the price gate: the totals of each asset grow by the reference contribution of the fund's holdings, and holding records are added for exactly its non-empty holdings at the batch. |
| Funds.ProcessFunds | src/mappings/PriceSource.ts:115-307 | The same frame holds across the whole fold over the funds of every version. |
| Funds.NetworkAssetsAcrossFunds | src/mappings/PriceSource.ts:115-207 | Across the fold, each asset's network totals at the batch grow by the reference sum of the holdings of every listed loaded fund, the funds skipped for an unpriced holding included. |
| Funds.HoldingRecordsAcrossFunds | src/mappings/PriceSource.ts:115-177 | Across the fold, holding records at the batch are added for exactly the non-empty holdings of every listed loaded fund, priced or not. Records of other batches stay. |
| Funds.RecordValuation | src/mappings/PriceSource.ts:209-303 | Recording a valid fund's valuation keeps the funds, their contracts and every non-fund entity, and leaves the holding records and network asset totals of the holdings stage as they were. |
| Funds.UnpricedFundSkipped | src/mappings/PriceSource.ts:204-207 | A loaded fund with an unpriced holding writes no calculations record, no fund update, no position and no investor total. It adds nothing to the network GAV and clears the network validity flag. |
| Funds.PricedFundRevalued | src/mappings/PriceSource.ts:209-250 | A priced fund gets its calculations record and new valuation. The previous daily share price takes the old current one, and the current one takes the new share price. The fund's GAV is added to the network total, the validity flag is kept, and the investor loop runs on its investors. |
| Funds.NetworkGavIsValidSum | src/mappings/PriceSource.ts:204-217 | The network GAV is the sum of the oracle GAVs of exactly the loaded funds whose holdings are all priced. The flag is false exactly when some loaded fund is not. |
| Funds.CalculationsWritten | src/mappings/PriceSource.ts:223-237 | Calculations records at the batch timestamp are written for exactly the loaded, priced funds. Other batches' records stay. |
| Funds.FundsKeepShares | src/mappings/PriceSource.ts:262-277 | No stage of the fold changes how many shares any position holds. |
| Funds.InvestorTotalsAcrossFunds | src/mappings/PriceSource.ts:291-300 | An investor's totals after the fold are its totals before, plus its parts of every listed loaded and priced fund. Each part is taken by the shares held before the batch. |
| Investors.Split | src/mappings/PriceSource.ts:268-273 | An investor's part is zero when the fund has no shares outstanding, and zero when the investor holds no shares. |
| Investors.SplitFloor | src/mappings/PriceSource.ts:270-272 | With shares outstanding, the part is the floor of `total * shares / supply`. |
| Investors.SplitAtMostTotal | src/mappings/PriceSource.ts:268-273 | An investor holding at most the whole supply never gets more than the fund's amount. |
| Investors.SplitsWithinTotal | src/mappings/PriceSource.ts:268-273 | When the investors' shares add up to at most the supply, their rounded-down parts add up to at most the fund's amount. |
| Investors.SumSplitsZeroSupply | src/mappings/PriceSource.ts:268-270 | With no shares outstanding, every investor's part, and so their sum, is zero. |
| Investors.SharesKept | src/mappings/PriceSource.ts:262-277 | The investor loop revalues positions without changing their shares. |
| Investors.PositionsRevalued | src/mappings/PriceSource.ts:259-288 | Every listed investor ends with its position and its valuation-history entry at its pro-rata GAV and NAV and the fund's share price. Positions of other investors or funds are untouched. Positions and valuation-history entries are created for exactly the listed investors in the fund, at the batch timestamp, and every other history entry stays. |
| Investors.PositionsFrame | src/mappings/PriceSource.ts:259-288 | The investor loop creates positions for exactly the listed (investor, fund) pairs and history entries for exactly the listed (investor, fund, timestamp) triples. Every other history entry is unchanged. |
| Investors.InvestorTotalsAdditive | src/mappings/PriceSource.ts:291-300 | An investor's total for the batch grows by its part of the fund once per time it appears in the list. |
| Investors.InvestorTotalsFrame | src/mappings/PriceSource.ts:291-302 | Totals are created for exactly the listed investors at the batch timestamp. Totals of other timestamps are unchanged. |
| PriceUpdate.FundsOfVersions | src/mappings/PriceSource.ts:115-118 | The funds of a registry's versions are found exactly when every version is loaded. They are then the versions' fund lists joined in version order, a fund listed twice being visited twice, and a fund is in the result exactly when it belongs to one of the versions. |
| PriceUpdate.AbortsOnMissingVersion | src/mappings/PriceSource.ts:115-118 | A run aborts exactly when it gets past the gate, finds its registry, and some version of the registry is not loaded. |
| PriceUpdate.NoRegistryNoSnapshot | src/mappings/PriceSource.ts:100-108 | Without a registry, or with one that is not loaded, the run commits after ingestion. It writes no fund entity, holding record, network asset total, position, position snapshot, investor total or network snapshot. |
| PriceUpdate.NetworkSnapshot | src/mappings/PriceSource.ts:310-314 | The run adds exactly one network snapshot, at the batch timestamp, and keeps the others. It holds the sum of the GAVs of exactly the loaded funds the batch's prices value in full. It is valid exactly when every loaded fund is so valued. |
| PriceUpdate.ValuationSnapshots | src/mappings/PriceSource.ts:223-237 | Across the whole run, a valuation record at the batch timestamp is written for exactly the fully priced loaded funds. |
| PriceUpdate.AssetTotalsSnapshot | src/mappings/PriceSource.ts:115-207 | Across the whole run, each asset's network totals for the batch are the old ones plus the holdings of every loaded fund, priced or not. |
| PriceUpdate.InvestorSnapshots | src/mappings/PriceSource.ts:291-300 | Across the whole run, an investor's totals for the batch are its old totals plus its parts of every fully priced loaded fund. |
| Scenario.IngestScenario | src/mappings/PriceSource.ts:56-89 | Ingesting A=100 and B=0 counts two assets and one invalid price. B keeps a zero price flagged invalid, and both prices enter the lookup. |
| Scenario.HoldingOfAValue | src/mappings/PriceSource.ts:158-163 | 2,000,000 units of A at price 100 with 6 decimals are worth 200. |
| Scenario.FundFValued | src/mappings/PriceSource.ts:154-177 | A fund holding 2,000,000 A and no B is valid, because its empty B holding needs no price. Its A holding is recorded at 200. |
| Scenario.FundGNotValued | src/mappings/PriceSource.ts:164-198 | A fund holding 500 B is invalid. B's network totals still count it among the funds holding B and among the invalid prices. |
| Scenario.FundGSkipped | src/mappings/PriceSource.ts:204-207 | In the fold over funds, that fund gets no calculations record, adds nothing to the network GAV and clears the validity flag, while its 500 B still enter B's network totals. |

## Left out

- **Event delivery, entity persistence and string ids.** The handler works on an explicit
  store value. Ids such as `fund + "/" + timestamp` become tuple keys.
- **Contract calls.** They are the `Chain` input functions. A failing call, which aborts the
  handler, is not modelled.
- **Parallel arrays.** The event's token and price arrays, and the two arrays returned by
  `getFundHoldings`, are zipped into sequences of pairs. Arrays of unequal lengths, which
  make the original trap, are not modelled.
- **Missing version.** A version id in the registry with no loaded version makes the
  original dereference null and abort. This is the `Aborted` outcome, which commits nothing.
- **Process state.** It is assumed to exist; its load-or-create helper is not part of this
  model.
- **Other load-or-create helpers.** The readers for positions, investor totals and network
  asset totals are modelled as returning zeroed records when absent.
- **Powers of ten.** `tenToThePowerOf` is modelled as `10^d`.
- **Counter width.** The 32-bit counters `numberOfAssets`, `invalidPrices` and
  `numberOfFunds` are unbounded naturals, so wrap-around is not modelled. A batch or fund
  list needs more than 2^31 entries to reach it.
- **Copy-only fields.** The fee fields and `gavPerShareNetManagementFee` are copied from the
  oracle result; no property is stated about them.
- **Intermediate price-update record.** The record is written with zero counts before the
  ingestion loop; only the final record is modelled.
- **Oracle address.** The emitting contract's address is the event's `priceSource` field.
- **Fund onboarding.** `handleNewFund` in src/mappings/Version.ts is not part of this model;
  the versions' fund lists are part of the input store.
- **Empty registry.** A registry whose version list is empty still gets a network snapshot,
  with GAV 0 and the validity flag true. This follows the code, which has no early return
  for that case, rather than a reading in which processing stops.
- **Fund contract fields.** The model takes each loaded fund's shares-contract address and
  current daily share price as set. The handler reads them as `fund.share` and
  `fund.currentDailySharePrice`. The onboarding in src/mappings/Version.ts writes the address
  to a field named `shares` and never sets the daily share price. The entity schema is not
  part of this model, so neither an unset field nor the abort it might cause is represented.
- Holdings.ValueHolding: its contract does not state that a zero amount with a non-zero
  price is worth zero. That case is a nonlinear product; Holdings.HoldingValueFloor covers
  it.
