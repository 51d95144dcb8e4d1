/**
 * The per-fund part of the handler: value the fund's holdings, skip a fund with
 * an unpriced holding, otherwise record the oracle's calculations, shift the
 * daily share prices, distribute to investors and add the fund's GAV to the
 * network total. The fold over all funds of all versions runs this per fund.
 */
module Funds {
  import opened Types
  import opened Entities
  import opened Holdings
  import opened Investors

  /** The result of the accounting contract's `performCalculations`. */
  datatype Calculations = Calculations(
    gav: nat,
    feesInDenominationAsset: nat,
    feesInShares: nat,
    nav: nat,
    sharePrice: nat,
    gavPerShareNetManagementFee: nat)

  /** The contract reads of the handler, as functions of the contract address. */
  datatype Chain = Chain(
    fundHoldings: Address -> seq<Holding>,          // accounting contract: getFundHoldings
    performCalculations: Address -> Calculations,   // accounting contract: performCalculations
    totalSupply: Address -> nat,                    // shares contract: totalSupply
    historicalInvestors: Address -> seq<Address>)   // participation contract: getHistoricalInvestors

  /** Running state of the fold over funds: the store, the network GAV and its validity flag. */
  datatype FundsPass = FundsPass(store: Store, gav: nat, validGav: bool)

  /** `after` differs from `before` at most in the entities the per-fund stages write. */
  predicate OnlyFundEntitiesChanged(before: Store, after: Store)
  {
    && after.state == before.state
    && after.registries == before.registries
    && after.versions == before.versions
    && after.assets == before.assets
    && after.priceUpdates == before.priceUpdates
    && after.priceHistory == before.priceHistory
    && after.networkHistory == before.networkHistory
  }

  /** The contracts of every fund in the store. */
  function Bindings(s: Store): map<Address, FundContracts>
  {
    map f | f in s.funds :: s.funds[f].contracts
  }

  /** Overwriting a fund with a record of the same contracts keeps the bindings. */
  lemma OverwriteKeepsBindings(s: Store, f: Address, fund: Fund)
    requires f in s.funds && fund.contracts == s.funds[f].contracts
    ensures Bindings(s.(funds := s.funds[f := fund])) == Bindings(s)
  {
    var s' := s.(funds := s.funds[f := fund]);
    assert forall g | g in s'.funds :: s'.funds[g].contracts == s.funds[g].contracts;
  }

  /** Fund `f` is loaded and every one of its holdings can be valued with this batch's prices. */
  predicate FundPriced(b: map<Address, FundContracts>, chain: Chain, prices: map<Address, nat>, f: Address)
  {
    f in b && AllPriced(chain.fundHoldings(b[f].accounting), prices)
  }

  /** The fund's new valuation; the previous daily share price takes the old current one. */
  function Revalue(fund: Fund, c: Calculations, supply: nat, ts: int): Fund
  {
    fund.(gav := c.gav, validPrice := true, totalSupply := supply,
          feesInDenominationAsset := c.feesInDenominationAsset, feesInShares := c.feesInShares,
          nav := c.nav, sharePrice := c.sharePrice,
          gavPerShareNetManagementFee := c.gavPerShareNetManagementFee,
          lastCalculationsUpdate := ts,
          previousDailySharePrice := fund.currentDailySharePrice,
          currentDailySharePrice := c.sharePrice)
  }

  /** The calculations record of a valid fund. */
  function CalculationsRecord(c: Calculations, supply: nat): FundCalculationsHistory
  {
    FundCalculationsHistory(c.gav, true, c.feesInDenominationAsset, c.feesInShares, c.nav,
                            c.sharePrice, c.gavPerShareNetManagementFee, supply, "priceUpdate")
  }

  /** The writes for a fund whose holdings were all priced: its calculations record, its new
      valuation, and the investor positions and totals. The holding records and network asset
      totals of the holdings stage are kept as they are. */
  function RecordValuation(chain: Chain, ts: int, s: Store, f: Address): (r: Store)
    requires f in s.funds
    ensures r.funds.Keys == s.funds.Keys
    ensures Bindings(r) == Bindings(s)
    ensures OnlyFundEntitiesChanged(s, r)
    ensures r.fundHoldings == s.fundHoldings && r.networkAssets == s.networkAssets
  {
    var fund := s.funds[f];
    var c := chain.performCalculations(fund.contracts.accounting);
    var supply := chain.totalSupply(fund.contracts.share);
    var ip := ProcessInvestors(f, ts, c.gav, c.nav, c.sharePrice, supply,
                               chain.historicalInvestors(fund.contracts.participation),
                               InvestorPass(s.investments, s.investmentHistory, s.investorHistory));
    OverwriteKeepsBindings(s, f, Revalue(fund, c, supply, ts));
    s.(calculations := s.calculations[(f, ts) := CalculationsRecord(c, supply)],
       funds := s.funds[f := Revalue(fund, c, supply, ts)],
       investments := ip.investments,
       investmentHistory := ip.investmentHistory,
       investorHistory := ip.investorHistory)
  }

  /** One iteration of the fold over funds. An unknown fund is skipped. A fund with an unpriced
      holding still has its holdings recorded and added to the network totals, then clears the
      network validity flag and is skipped. */
  function ProcessFund(chain: Chain, prices: map<Address, nat>, decimals: map<Address, nat>, ts: int,
                       acc: FundsPass, f: Address): (r: FundsPass)
    ensures r.store.funds.Keys == acc.store.funds.Keys
    ensures Bindings(r.store) == Bindings(acc.store)
    ensures OnlyFundEntitiesChanged(acc.store, r.store)
    ensures acc.gav <= r.gav && (r.validGav ==> acc.validGav)
  {
    if f !in acc.store.funds then acc
    else
      var s := acc.store;
      var v := ValueHoldings(f, ts, chain.fundHoldings(s.funds[f].contracts.accounting), prices, decimals,
                             s.fundHoldings, s.networkAssets);
      var s1 := s.(fundHoldings := v.records, networkAssets := v.networkAssets);
      assert Bindings(s1) == Bindings(s);
      if !v.valid then FundsPass(s1, acc.gav, false)
      else FundsPass(RecordValuation(chain, ts, s1, f),
                     acc.gav + chain.performCalculations(s.funds[f].contracts.accounting).gav, acc.validGav)
  }

  /** The fold over every fund of every version. */
  function ProcessFunds(chain: Chain, prices: map<Address, nat>, decimals: map<Address, nat>, ts: int,
                        init: FundsPass, fs: seq<Address>): (r: FundsPass)
    ensures Bindings(r.store) == Bindings(init.store)
    ensures OnlyFundEntitiesChanged(init.store, r.store)
    decreases |fs|
  {
    if |fs| == 0 then init
    else ProcessFund(chain, prices, decimals, ts, ProcessFunds(chain, prices, decimals, ts, init, fs[..|fs| - 1]), fs[|fs| - 1])
  }

  /** A loaded fund with an unpriced holding leaves the calculations, the fund record, the
      positions and the investor totals as they were, adds nothing to the network GAV and
      clears the network validity flag. */
  lemma UnpricedFundSkipped(chain: Chain, prices: map<Address, nat>, decimals: map<Address, nat>, ts: int,
                            acc: FundsPass, f: Address)
    requires f in acc.store.funds && !FundPriced(Bindings(acc.store), chain, prices, f)
    ensures var r := ProcessFund(chain, prices, decimals, ts, acc, f);
            && r.gav == acc.gav && !r.validGav
            && r.store.calculations == acc.store.calculations
            && r.store.funds == acc.store.funds
            && r.store.investments == acc.store.investments
            && r.store.investmentHistory == acc.store.investmentHistory
            && r.store.investorHistory == acc.store.investorHistory
  {
    var s := acc.store;
    var fund := s.funds[f];
    assert Bindings(s)[f] == fund.contracts;
    FundFlagIffAllPriced(f, ts, chain.fundHoldings(fund.contracts.accounting), prices, decimals,
                         s.fundHoldings, s.networkAssets);
  }

  /** A priced fund gets its calculations record, its new valuation with the daily share prices
      shifted, its GAV added to the network total, and leaves the validity flag as it was. */
  lemma PricedFundRevalued(chain: Chain, prices: map<Address, nat>, decimals: map<Address, nat>, ts: int,
                           acc: FundsPass, f: Address)
    requires FundPriced(Bindings(acc.store), chain, prices, f)
    ensures var r := ProcessFund(chain, prices, decimals, ts, acc, f);
            var fund := acc.store.funds[f];
            var c := chain.performCalculations(fund.contracts.accounting);
            var supply := chain.totalSupply(fund.contracts.share);
            && r.gav == acc.gav + c.gav && r.validGav == acc.validGav
            && r.store.calculations == acc.store.calculations[(f, ts) := CalculationsRecord(c, supply)]
            && r.store.funds == acc.store.funds[f := Revalue(fund, c, supply, ts)]
            && r.store.funds[f].previousDailySharePrice == fund.currentDailySharePrice
            && r.store.funds[f].currentDailySharePrice == c.sharePrice
            && InvestorPass(r.store.investments, r.store.investmentHistory, r.store.investorHistory)
               == ProcessInvestors(f, ts, c.gav, c.nav, c.sharePrice, supply,
                                   chain.historicalInvestors(fund.contracts.participation),
                                   InvestorPass(acc.store.investments, acc.store.investmentHistory, acc.store.investorHistory))
  {
    var s := acc.store;
    var fund := s.funds[f];
    assert Bindings(s)[f] == fund.contracts;
    FundFlagIffAllPriced(f, ts, chain.fundHoldings(fund.contracts.accounting), prices, decimals,
                         s.fundHoldings, s.networkAssets);
  }

  /** Whether or not it passes the price gate, a loaded fund's holdings are recorded, one key per
      non-empty holding at batch `ts`, and every holding is added into its asset's network totals. */
  lemma FundHoldingsCounted(chain: Chain, prices: map<Address, nat>, decimals: map<Address, nat>, ts: int,
                            acc: FundsPass, f: Address, a: Address)
    requires f in acc.store.funds
    ensures var r := ProcessFund(chain, prices, decimals, ts, acc, f);
            var hs := chain.fundHoldings(acc.store.funds[f].contracts.accounting);
            && NetworkAssetOf(r.store.networkAssets, (a, ts))
               == AddTotals(NetworkAssetOf(acc.store.networkAssets, (a, ts)), AssetContribution(hs, a, prices, decimals))
            && r.store.fundHoldings.Keys == acc.store.fundHoldings.Keys + RecordedHoldings(f, ts, hs)
            && (forall key | key in acc.store.fundHoldings && (key.0 != f || key.1 != ts) ::
                  r.store.fundHoldings[key] == acc.store.fundHoldings[key])
  {
    var s := acc.store;
    var hs := chain.fundHoldings(s.funds[f].contracts.accounting);
    var v := ValueHoldings(f, ts, hs, prices, decimals, s.fundHoldings, s.networkAssets);
    var r := ProcessFund(chain, prices, decimals, ts, acc, f);
    assert r.store.fundHoldings == v.records && r.store.networkAssets == v.networkAssets;
    NetworkAssetsAdditive(f, ts, hs, prices, decimals, s.fundHoldings, s.networkAssets, a);
    HoldingRecordKeys(f, ts, hs, prices, decimals, s.fundHoldings, s.networkAssets);
  }

  /** What a listed fund adds to the network totals of asset `a`: the contribution of all its
      holdings when it is loaded, nothing otherwise. */
  function FundAssetPart(b: map<Address, FundContracts>, chain: Chain, prices: map<Address, nat>,
                         decimals: map<Address, nat>, f: Address, a: Address): NetworkAssetHistory
  {
    if f in b then AssetContribution(chain.fundHoldings(b[f].accounting), a, prices, decimals)
    else NetworkAssetHistory(0, 0, 0, 0)
  }

  /** Reference sum: what the holdings of every listed fund that is loaded, priced or not, add to
      the network totals of asset `a`. */
  function LoadedAssetSum(b: map<Address, FundContracts>, chain: Chain, prices: map<Address, nat>,
                          decimals: map<Address, nat>, fs: seq<Address>, a: Address): NetworkAssetHistory
    decreases |fs|
  {
    if |fs| == 0 then NetworkAssetHistory(0, 0, 0, 0)
    else AddTotals(LoadedAssetSum(b, chain, prices, decimals, fs[..|fs| - 1], a),
                   FundAssetPart(b, chain, prices, decimals, fs[|fs| - 1], a))
  }

  lemma AddTotalsAssoc(x: NetworkAssetHistory, y: NetworkAssetHistory, z: NetworkAssetHistory)
    ensures AddTotals(AddTotals(x, y), z) == AddTotals(x, AddTotals(y, z))
  {
  }

  /** The holding record keys of every listed fund that is loaded, priced or not, at batch `ts`. */
  function LoadedHoldingKeys(b: map<Address, FundContracts>, chain: Chain, fs: seq<Address>, ts: int): set<(Address, int, Address)>
    decreases |fs|
  {
    if |fs| == 0 then {}
    else
      var f := fs[|fs| - 1];
      LoadedHoldingKeys(b, chain, fs[..|fs| - 1], ts)
        + if f in b then RecordedHoldings(f, ts, chain.fundHoldings(b[f].accounting)) else {}
  }

  lemma AssetTotalsStep(chain: Chain, prices: map<Address, nat>, decimals: map<Address, nat>, ts: int,
                        init: FundsPass, prev: FundsPass, f: Address, a: Address, rest: NetworkAssetHistory)
    requires Bindings(prev.store) == Bindings(init.store)
    requires NetworkAssetOf(prev.store.networkAssets, (a, ts)) == AddTotals(NetworkAssetOf(init.store.networkAssets, (a, ts)), rest)
    ensures NetworkAssetOf(ProcessFund(chain, prices, decimals, ts, prev, f).store.networkAssets, (a, ts))
            == AddTotals(NetworkAssetOf(init.store.networkAssets, (a, ts)),
                         AddTotals(rest, FundAssetPart(Bindings(init.store), chain, prices, decimals, f, a)))
  {
    var before := NetworkAssetOf(init.store.networkAssets, (a, ts));
    var part := FundAssetPart(Bindings(init.store), chain, prices, decimals, f, a);
    AddTotalsAssoc(before, rest, part);
    if f in prev.store.funds {
      assert Bindings(init.store)[f] == prev.store.funds[f].contracts;
      FundHoldingsCounted(chain, prices, decimals, ts, prev, f, a);
    } else {
      assert f !in Bindings(init.store);
    }
  }

  /** Additive aggregation over the fold: each asset's network totals at batch `ts` grow by the
      holdings of every loaded fund, including the funds skipped for an unpriced holding. */
  lemma {:induction false} NetworkAssetsAcrossFunds(chain: Chain, prices: map<Address, nat>, decimals: map<Address, nat>, ts: int,
                                                    init: FundsPass, fs: seq<Address>, a: Address)
    ensures var r := ProcessFunds(chain, prices, decimals, ts, init, fs);
            NetworkAssetOf(r.store.networkAssets, (a, ts))
              == AddTotals(NetworkAssetOf(init.store.networkAssets, (a, ts)),
                           LoadedAssetSum(Bindings(init.store), chain, prices, decimals, fs, a))
    decreases |fs|
  {
    if |fs| > 0 {
      var p := fs[..|fs| - 1];
      NetworkAssetsAcrossFunds(chain, prices, decimals, ts, init, p, a);
      ProcessFundsSnoc(chain, prices, decimals, ts, init, fs);
      AssetTotalsStep(chain, prices, decimals, ts, init, ProcessFunds(chain, prices, decimals, ts, init, p), fs[|fs| - 1], a,
                      LoadedAssetSum(Bindings(init.store), chain, prices, decimals, p, a));
    }
  }

  lemma HoldingKeysStep(chain: Chain, prices: map<Address, nat>, decimals: map<Address, nat>, ts: int,
                        init: FundsPass, prev: FundsPass, f: Address, keys: set<(Address, int, Address)>)
    requires Bindings(prev.store) == Bindings(init.store)
    requires prev.store.fundHoldings.Keys == init.store.fundHoldings.Keys + keys
    requires forall key | key in init.store.fundHoldings && key.1 != ts :: prev.store.fundHoldings[key] == init.store.fundHoldings[key]
    ensures var b := Bindings(init.store);
            var r := ProcessFund(chain, prices, decimals, ts, prev, f);
            && r.store.fundHoldings.Keys
               == init.store.fundHoldings.Keys + keys + (if f in b then RecordedHoldings(f, ts, chain.fundHoldings(b[f].accounting)) else {})
            && (forall key | key in init.store.fundHoldings && key.1 != ts :: r.store.fundHoldings[key] == init.store.fundHoldings[key])
  {
    if f in prev.store.funds {
      assert Bindings(prev.store)[f] == prev.store.funds[f].contracts;
      FundHoldingsCounted(chain, prices, decimals, ts, prev, f, f);
    } else {
      assert f !in Bindings(init.store);
    }
  }

  /** The holding records over the fold: the keys at batch `ts` are exactly those of the non-empty
      holdings of every loaded fund, priced or not, and records of other batches stay. */
  lemma {:induction false} HoldingRecordsAcrossFunds(chain: Chain, prices: map<Address, nat>, decimals: map<Address, nat>, ts: int,
                                                     init: FundsPass, fs: seq<Address>)
    ensures var r := ProcessFunds(chain, prices, decimals, ts, init, fs);
            && r.store.fundHoldings.Keys == init.store.fundHoldings.Keys + LoadedHoldingKeys(Bindings(init.store), chain, fs, ts)
            && (forall key | key in init.store.fundHoldings && key.1 != ts ::
                  r.store.fundHoldings[key] == init.store.fundHoldings[key])
    decreases |fs|
  {
    if |fs| > 0 {
      var p := fs[..|fs| - 1];
      HoldingRecordsAcrossFunds(chain, prices, decimals, ts, init, p);
      ProcessFundsSnoc(chain, prices, decimals, ts, init, fs);
      HoldingKeysStep(chain, prices, decimals, ts, init, ProcessFunds(chain, prices, decimals, ts, init, p), fs[|fs| - 1],
                      LoadedHoldingKeys(Bindings(init.store), chain, p, ts));
    }
  }

  /** Reference sum: the `performCalculations` GAV of every listed fund that is loaded and priced. */
  function ValidGavSum(b: map<Address, FundContracts>, chain: Chain, prices: map<Address, nat>, fs: seq<Address>): nat
    decreases |fs|
  {
    if |fs| == 0 then 0
    else
      var f := fs[|fs| - 1];
      ValidGavSum(b, chain, prices, fs[..|fs| - 1])
        + if FundPriced(b, chain, prices, f) then chain.performCalculations(b[f].accounting).gav else 0
  }

  /** Every listed fund that is loaded is priced. */
  predicate AllLoadedPriced(b: map<Address, FundContracts>, chain: Chain, prices: map<Address, nat>, fs: seq<Address>)
  {
    forall j | 0 <= j < |fs| && fs[j] in b :: FundPriced(b, chain, prices, fs[j])
  }

  lemma ProcessFundsSnoc(chain: Chain, prices: map<Address, nat>, decimals: map<Address, nat>, ts: int,
                         init: FundsPass, fs: seq<Address>)
    requires |fs| > 0
    ensures ProcessFunds(chain, prices, decimals, ts, init, fs)
            == ProcessFund(chain, prices, decimals, ts, ProcessFunds(chain, prices, decimals, ts, init, fs[..|fs| - 1]), fs[|fs| - 1])
  {
  }

  lemma AllLoadedPricedSnoc(b: map<Address, FundContracts>, chain: Chain, prices: map<Address, nat>, fs: seq<Address>)
    requires |fs| > 0
    ensures AllLoadedPriced(b, chain, prices, fs)
            <==> AllLoadedPriced(b, chain, prices, fs[..|fs| - 1])
                 && (fs[|fs| - 1] in b ==> FundPriced(b, chain, prices, fs[|fs| - 1]))
  {
    var p := fs[..|fs| - 1];
    assert forall j | 0 <= j < |p| :: fs[j] == p[j];
  }

  /** The network snapshot's totals: the GAV is the sum over exactly the loaded funds whose
      holdings were all priced, and the validity flag is false exactly when some loaded fund
      was not priced. */
  lemma {:induction false} NetworkGavIsValidSum(chain: Chain, prices: map<Address, nat>, decimals: map<Address, nat>, ts: int,
                                                init: FundsPass, fs: seq<Address>)
    ensures var r := ProcessFunds(chain, prices, decimals, ts, init, fs);
            && r.gav == init.gav + ValidGavSum(Bindings(init.store), chain, prices, fs)
            && (r.validGav <==> init.validGav && AllLoadedPriced(Bindings(init.store), chain, prices, fs))
    decreases |fs|
  {
    if |fs| > 0 {
      var p := fs[..|fs| - 1];
      var f := fs[|fs| - 1];
      NetworkGavIsValidSum(chain, prices, decimals, ts, init, p);
      AllLoadedPricedSnoc(Bindings(init.store), chain, prices, fs);
      var prev := ProcessFunds(chain, prices, decimals, ts, init, p);
      ProcessFundsSnoc(chain, prices, decimals, ts, init, fs);
      if f in prev.store.funds {
        assert Bindings(prev.store)[f] == prev.store.funds[f].contracts;
        if FundPriced(Bindings(prev.store), chain, prices, f) {
          PricedFundRevalued(chain, prices, decimals, ts, prev, f);
        } else {
          UnpricedFundSkipped(chain, prices, decimals, ts, prev, f);
        }
      } else {
        assert f !in Bindings(init.store);
      }
    }
  }

  /** The calculations keys of the listed funds that are loaded and priced, at batch `ts`. */
  function PricedFundKeys(b: map<Address, FundContracts>, chain: Chain, prices: map<Address, nat>,
                          fs: seq<Address>, ts: int): set<(Address, int)>
  {
    set j | 0 <= j < |fs| && FundPriced(b, chain, prices, fs[j]) :: (fs[j], ts)
  }

  lemma PricedFundKeysSnoc(b: map<Address, FundContracts>, chain: Chain, prices: map<Address, nat>,
                           fs: seq<Address>, ts: int)
    requires |fs| > 0
    ensures var f := fs[|fs| - 1];
            PricedFundKeys(b, chain, prices, fs, ts)
              == PricedFundKeys(b, chain, prices, fs[..|fs| - 1], ts)
                 + if FundPriced(b, chain, prices, f) then {(f, ts)} else {}
  {
    var p := fs[..|fs| - 1];
    var f := fs[|fs| - 1];
    forall key | key in PricedFundKeys(b, chain, prices, fs, ts)
      ensures key in PricedFundKeys(b, chain, prices, p, ts) + if FundPriced(b, chain, prices, f) then {(f, ts)} else {}
    {
      var j :| 0 <= j < |fs| && FundPriced(b, chain, prices, fs[j]) && key == (fs[j], ts);
      if j < |p| { assert fs[j] == p[j]; }
    }
    forall key | key in PricedFundKeys(b, chain, prices, p, ts) ensures key in PricedFundKeys(b, chain, prices, fs, ts) {
      var j :| 0 <= j < |p| && FundPriced(b, chain, prices, p[j]) && key == (p[j], ts);
      assert fs[j] == p[j];
    }
    if FundPriced(b, chain, prices, f) {
      assert (f, ts) == (fs[|p|], ts);
    }
  }

  /** A calculations record is written at batch `ts` for exactly the listed funds that are loaded
      and priced: none for a fund with an unpriced holding. Records of other batches stay. */
  lemma {:induction false} CalculationsWritten(chain: Chain, prices: map<Address, nat>, decimals: map<Address, nat>, ts: int,
                                               init: FundsPass, fs: seq<Address>)
    ensures var r := ProcessFunds(chain, prices, decimals, ts, init, fs);
            && r.store.calculations.Keys
               == init.store.calculations.Keys + PricedFundKeys(Bindings(init.store), chain, prices, fs, ts)
            && (forall k | k in init.store.calculations && k.1 != ts :: r.store.calculations[k] == init.store.calculations[k])
    decreases |fs|
  {
    var b := Bindings(init.store);
    if |fs| == 0 {
      assert PricedFundKeys(b, chain, prices, fs, ts) == {};
    } else {
      var p := fs[..|fs| - 1];
      var f := fs[|fs| - 1];
      CalculationsWritten(chain, prices, decimals, ts, init, p);
      PricedFundKeysSnoc(b, chain, prices, fs, ts);
      var prev := ProcessFunds(chain, prices, decimals, ts, init, p);
      ProcessFundsSnoc(chain, prices, decimals, ts, init, fs);
      if f in prev.store.funds {
        assert Bindings(prev.store)[f] == prev.store.funds[f].contracts;
        if FundPriced(b, chain, prices, f) {
          PricedFundRevalued(chain, prices, decimals, ts, prev, f);
        } else {
          UnpricedFundSkipped(chain, prices, decimals, ts, prev, f);
        }
      } else {
        assert f !in b;
      }
    }
  }

  /** No stage of the fold changes how many shares a position holds. */
  lemma {:induction false} FundsKeepShares(chain: Chain, prices: map<Address, nat>, decimals: map<Address, nat>, ts: int,
                                           init: FundsPass, fs: seq<Address>)
    ensures var r := ProcessFunds(chain, prices, decimals, ts, init, fs);
            forall k :: InvestmentOf(r.store.investments, k).shares == InvestmentOf(init.store.investments, k).shares
    decreases |fs|
  {
    if |fs| > 0 {
      var p := fs[..|fs| - 1];
      var f := fs[|fs| - 1];
      FundsKeepShares(chain, prices, decimals, ts, init, p);
      var prev := ProcessFunds(chain, prices, decimals, ts, init, p);
      ProcessFundsSnoc(chain, prices, decimals, ts, init, fs);
      if f in prev.store.funds {
        var b := Bindings(prev.store);
        assert b[f] == prev.store.funds[f].contracts;
        if FundPriced(b, chain, prices, f) {
          PricedFundRevalued(chain, prices, decimals, ts, prev, f);
          var fund := prev.store.funds[f];
          var c := chain.performCalculations(fund.contracts.accounting);
          SharesKept(f, ts, c.gav, c.nav, c.sharePrice, chain.totalSupply(fund.contracts.share),
                     chain.historicalInvestors(fund.contracts.participation),
                     InvestorPass(prev.store.investments, prev.store.investmentHistory, prev.store.investorHistory));
        } else {
          UnpricedFundSkipped(chain, prices, decimals, ts, prev, f);
        }
      }
    }
  }

  /** What one listed fund adds to an investor's totals: its part of the fund's GAV and NAV,
      by the shares it held before the batch, once per time it is listed as an investor. */
  function FundPart(b: map<Address, FundContracts>, investments: map<(Address, Address), Investment>,
                    chain: Chain, f: Address, investor: Address): InvestorValuationHistory
    requires f in b
  {
    var c := chain.performCalculations(b[f].accounting);
    var supply := chain.totalSupply(b[f].share);
    var times := Occurrences(chain.historicalInvestors(b[f].participation), investor);
    var shares := InvestmentOf(investments, (investor, f)).shares;
    InvestorValuationHistory(times * Split(c.gav, shares, supply), times * Split(c.nav, shares, supply))
  }

  function AddValuations(a: InvestorValuationHistory, b: InvestorValuationHistory): InvestorValuationHistory
  {
    InvestorValuationHistory(a.gav + b.gav, a.nav + b.nav)
  }

  /** Reference sum: an investor's parts of every listed fund that is loaded and priced. */
  function InvestorPartsSum(b: map<Address, FundContracts>, investments: map<(Address, Address), Investment>,
                            chain: Chain, prices: map<Address, nat>, fs: seq<Address>, investor: Address): InvestorValuationHistory
    decreases |fs|
  {
    if |fs| == 0 then InvestorValuationHistory(0, 0)
    else
      var f := fs[|fs| - 1];
      var rest := InvestorPartsSum(b, investments, chain, prices, fs[..|fs| - 1], investor);
      if FundPriced(b, chain, prices, f) then AddValuations(rest, FundPart(b, investments, chain, f, investor)) else rest
  }

  lemma PartAdded(b: map<Address, FundContracts>, investments: map<(Address, Address), Investment>, chain: Chain,
                  f: Address, ts: int, pass: InvestorPass, investor: Address,
                  base: InvestorValuationHistory, sum: InvestorValuationHistory)
    requires f in b
    requires InvestmentOf(pass.investments, (investor, f)).shares == InvestmentOf(investments, (investor, f)).shares
    requires InvestorValuationOf(pass.investorHistory, (investor, ts)) == AddValuations(base, sum)
    ensures var c := chain.performCalculations(b[f].accounting);
            var r := ProcessInvestors(f, ts, c.gav, c.nav, c.sharePrice, chain.totalSupply(b[f].share),
                                      chain.historicalInvestors(b[f].participation), pass);
            InvestorValuationOf(r.investorHistory, (investor, ts))
              == AddValuations(base, AddValuations(sum, FundPart(b, investments, chain, f, investor)))
  {
    var c := chain.performCalculations(b[f].accounting);
    InvestorTotalsAdditive(f, ts, c.gav, c.nav, c.sharePrice, chain.totalSupply(b[f].share),
                           chain.historicalInvestors(b[f].participation), pass, investor);
  }

  lemma PricedInvestorStep(chain: Chain, prices: map<Address, nat>, decimals: map<Address, nat>, ts: int,
                           init: FundsPass, prev: FundsPass, f: Address, investor: Address, sum: InvestorValuationHistory)
    requires Bindings(prev.store) == Bindings(init.store)
    requires FundPriced(Bindings(init.store), chain, prices, f)
    requires forall k :: InvestmentOf(prev.store.investments, k).shares == InvestmentOf(init.store.investments, k).shares
    requires InvestorValuationOf(prev.store.investorHistory, (investor, ts))
             == AddValuations(InvestorValuationOf(init.store.investorHistory, (investor, ts)), sum)
    ensures var r := ProcessFund(chain, prices, decimals, ts, prev, f);
            InvestorValuationOf(r.store.investorHistory, (investor, ts))
              == AddValuations(InvestorValuationOf(init.store.investorHistory, (investor, ts)),
                               AddValuations(sum, FundPart(Bindings(init.store), init.store.investments, chain, f, investor)))
  {
    PricedFundRevalued(chain, prices, decimals, ts, prev, f);
    PartAdded(Bindings(prev.store), init.store.investments, chain, f, ts,
              InvestorPass(prev.store.investments, prev.store.investmentHistory, prev.store.investorHistory), investor,
              InvestorValuationOf(init.store.investorHistory, (investor, ts)), sum);
  }

  /** A fund that is not loaded or not priced leaves every investor total as it was. */
  lemma UnpricedLeavesInvestors(chain: Chain, prices: map<Address, nat>, decimals: map<Address, nat>, ts: int,
                                acc: FundsPass, f: Address)
    requires !FundPriced(Bindings(acc.store), chain, prices, f)
    ensures ProcessFund(chain, prices, decimals, ts, acc, f).store.investorHistory == acc.store.investorHistory
  {
    if f in acc.store.funds {
      UnpricedFundSkipped(chain, prices, decimals, ts, acc, f);
    }
  }

  /** Investor totals accumulate across funds: after the fold, an investor's total for the batch
      is what it was plus its parts of every listed fund that is loaded and priced. */
  lemma {:induction false} InvestorTotalsAcrossFunds(chain: Chain, prices: map<Address, nat>, decimals: map<Address, nat>, ts: int,
                                                     init: FundsPass, fs: seq<Address>, investor: Address)
    ensures var r := ProcessFunds(chain, prices, decimals, ts, init, fs);
            InvestorValuationOf(r.store.investorHistory, (investor, ts))
              == AddValuations(InvestorValuationOf(init.store.investorHistory, (investor, ts)),
                               InvestorPartsSum(Bindings(init.store), init.store.investments, chain, prices, fs, investor))
    decreases |fs|
  {
    if |fs| > 0 {
      var p := fs[..|fs| - 1];
      InvestorTotalsAcrossFunds(chain, prices, decimals, ts, init, p, investor);
      FundsKeepShares(chain, prices, decimals, ts, init, p);
      ProcessFundsSnoc(chain, prices, decimals, ts, init, fs);
      var prev := ProcessFunds(chain, prices, decimals, ts, init, p);
      var f := fs[|fs| - 1];
      var sum := InvestorPartsSum(Bindings(init.store), init.store.investments, chain, prices, p, investor);
      if FundPriced(Bindings(init.store), chain, prices, f) {
        PricedInvestorStep(chain, prices, decimals, ts, init, prev, f, investor, sum);
      } else {
        UnpricedLeavesInvestors(chain, prices, decimals, ts, prev, f);
      }
    } else {
      assert InvestorValuationOf(init.store.investorHistory, (investor, ts))
             == AddValuations(InvestorValuationOf(init.store.investorHistory, (investor, ts)), InvestorValuationHistory(0, 0));
    }
  }
}
