/**
 * A worked batch: asset A priced 100 with 6 decimals, asset B priced 0. Fund F
 * holds 2,000,000 A and no B, fund G holds 2,000,000 A and 500 B. F is valued
 * (its zero B holding needs no price) at 200 for its A holding; G is not valued,
 * gets no calculations record, and B's network totals count G's unpriced holding.
 */
module Scenario {
  import opened Types
  import opened Entities
  import opened PriceIngest
  import opened Holdings
  import opened Funds
  import opened PriceUpdate

  const A: Address := "A"
  const B: Address := "B"
  const F: Address := "F"
  const G: Address := "G"

  function Batch(): seq<PriceEntry>
  {
    [PriceEntry(A, 100), PriceEntry(B, 0)]
  }

  function HoldingsOfF(): seq<Holding>
  {
    [Holding(2000000, A), Holding(0, B)]
  }

  function HoldingsOfG(): seq<Holding>
  {
    [Holding(2000000, A), Holding(500, B)]
  }

  /** A batch 200 seconds after the last processed one is dropped without a trace. */
  lemma GateDropsEarlyBatch(s: Store, chain: Chain, e: PriceUpdateEvent)
    requires s.state.lastPriceUpdate == 1000 && e.timestamp == 1200
    ensures HandlePriceUpdate(s, chain, e) == Committed(s)
  {
    assert RateLimited(1200, 1000);
  }

  /** A batch exactly one interval after the last processed one is not dropped: the
      comparison is strict. */
  lemma GateLetsIntervalThrough(s: Store, chain: Chain, e: PriceUpdateEvent)
    requires e.timestamp == s.state.lastPriceUpdate + 300
    ensures HandlePriceUpdate(s, chain, e) != Committed(s)
    ensures HandlePriceUpdate(s, chain, e).Committed? ==> HandlePriceUpdate(s, chain, e).store.state.lastPriceUpdate == e.timestamp
  {
    assert !RateLimited(e.timestamp, s.state.lastPriceUpdate);
  }

  /** Ingesting the batch: both assets are counted, B's zero price is counted as invalid,
      B's record keeps a zero price flagged invalid, and the lookups carry both prices. */
  lemma IngestScenario(assets: map<Address, Asset>, history: map<(Address, int), AssetPriceHistory>, ts: int)
    requires A in assets && B in assets && assets[A].decimals == 6
    ensures var g := Ingest(assets, history, Batch(), ts);
            && g.numberOfAssets == 2 && g.invalidPrices == 1
            && g.prices == map[A := 100, B := 0]
            && g.decimals == map[A := 6, B := assets[B].decimals]
            && g.assets[B].lastPrice == 0 && !g.assets[B].lastPriceValid
            && g.assets[A].lastPrice == 100 && g.assets[A].lastPriceValid
            && ScenarioPrices(g.prices, g.decimals)
  {
    var b := Batch();
    assert b[..1][..0] == [];
    assert b[..|b| - 1] == [PriceEntry(A, 100)];
  }

  /** The lookups the batch produces: A priced 100 with 6 decimals, B priced 0. */
  predicate ScenarioPrices(prices: map<Address, nat>, decimals: map<Address, nat>)
  {
    PriceOf(prices, A) == 100 && PriceOf(prices, B) == 0 && DecimalsOf(decimals, A) == 6
  }

  /** 2,000,000 units of A at price 100 with 6 decimals are worth 200. */
  lemma HoldingOfAValue(prices: map<Address, nat>, decimals: map<Address, nat>)
    requires ScenarioPrices(prices, decimals)
    ensures ValueHolding(Holding(2000000, A), prices, decimals) == FundHoldingsHistory(2000000, 200, true)
  {
    assert TenToThePowerOf(6) == 1000000;
    assert FloorDiv(2000000 * 100, 1000000) == 200;
  }

  /** The holdings loop over two holdings is two steps from a valid start. */
  lemma TwoHoldings(fund: Address, ts: int, h1: Holding, h2: Holding,
                    prices: map<Address, nat>, decimals: map<Address, nat>,
                    records: map<(Address, int, Address), FundHoldingsHistory>,
                    networkAssets: map<(Address, int), NetworkAssetHistory>)
    ensures ValueHoldings(fund, ts, [h1, h2], prices, decimals, records, networkAssets)
            == ValueStep(fund, ts, prices, decimals,
                         ValueStep(fund, ts, prices, decimals, Valuation(true, records, networkAssets), h1), h2)
  {
    var hs := [h1, h2];
    assert hs[..1] == [h1];
    assert [h1][..0] == [];
    ValueHoldingsSnoc(fund, ts, [h1], prices, decimals, records, networkAssets);
    ValueHoldingsSnoc(fund, ts, hs, prices, decimals, records, networkAssets);
  }

  /** F is valued, and its A holding is worth 2,000,000 * 100 / 10^6 = 200. */
  lemma FundFValued(ts: int, prices: map<Address, nat>, decimals: map<Address, nat>,
                    records: map<(Address, int, Address), FundHoldingsHistory>,
                    networkAssets: map<(Address, int), NetworkAssetHistory>)
    requires ScenarioPrices(prices, decimals)
    ensures var v := ValueHoldings(F, ts, HoldingsOfF(), prices, decimals, records, networkAssets);
            && v.valid
            && (F, ts, A) in v.records
            && v.records[(F, ts, A)] == FundHoldingsHistory(2000000, 200, true)
  {
    TwoHoldings(F, ts, Holding(2000000, A), Holding(0, B), prices, decimals, records, networkAssets);
    HoldingOfAValue(prices, decimals);
  }

  /** G is not valued, and B's network totals at the batch count G among the funds holding
      B and among the unpriced holdings. */
  lemma FundGNotValued(ts: int, prices: map<Address, nat>, decimals: map<Address, nat>,
                       records: map<(Address, int, Address), FundHoldingsHistory>,
                       networkAssets: map<(Address, int), NetworkAssetHistory>)
    requires ScenarioPrices(prices, decimals)
    ensures var v := ValueHoldings(G, ts, HoldingsOfG(), prices, decimals, records, networkAssets);
            var before := NetworkAssetOf(networkAssets, (B, ts));
            && !v.valid
            && NetworkAssetOf(v.networkAssets, (B, ts)) == AddTotals(before, NetworkAssetHistory(500, 0, 1, 1))
  {
    TwoHoldings(G, ts, Holding(2000000, A), Holding(500, B), prices, decimals, records, networkAssets);
    var v1 := ValueStep(G, ts, prices, decimals, Valuation(true, records, networkAssets), Holding(2000000, A));
    assert (A, ts) != (B, ts) by { assert A[0] != B[0]; }
    assert NetworkAssetOf(v1.networkAssets, (B, ts)) == NetworkAssetOf(networkAssets, (B, ts));
  }

  /** In the fold over funds, G leaves no calculations record and clears the network
      validity flag, yet its holding of B is still counted in B's network totals. */
  lemma FundGSkipped(chain: Chain, prices: map<Address, nat>, decimals: map<Address, nat>, ts: int, acc: FundsPass)
    requires G in acc.store.funds
    requires chain.fundHoldings(acc.store.funds[G].contracts.accounting) == HoldingsOfG()
    requires ScenarioPrices(prices, decimals)
    ensures var r := ProcessFund(chain, prices, decimals, ts, acc, G);
            && r.store.calculations == acc.store.calculations
            && r.gav == acc.gav
            && !r.validGav
            && NetworkAssetOf(r.store.networkAssets, (B, ts))
               == AddTotals(NetworkAssetOf(acc.store.networkAssets, (B, ts)), NetworkAssetHistory(500, 0, 1, 1))
  {
    var hs := HoldingsOfG();
    assert !Priced(hs[1], prices);
    UnpricedFundSkipped(chain, prices, decimals, ts, acc, G);
    var v := ValueHoldings(G, ts, hs, prices, decimals, acc.store.fundHoldings, acc.store.networkAssets);
    FundGNotValued(ts, prices, decimals, acc.store.fundHoldings, acc.store.networkAssets);
    assert ProcessFund(chain, prices, decimals, ts, acc, G).store.networkAssets == v.networkAssets;
  }
}
