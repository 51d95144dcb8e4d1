/**
 * Holdings valuation of one fund: every holding is valued against the batch's
 * lookups, a fund-level validity flag is carried through without stopping early,
 * non-empty holdings are recorded, and every holding is added into the
 * network-wide totals of its asset.
 */
module Holdings {
  import opened Types
  import opened Entities

  /** One (amount, asset) pair of `getFundHoldings`, whose two parallel arrays are zipped. */
  datatype Holding = Holding(amount: nat, asset: Address)

  /** The batch price of an asset; an asset the batch did not price reads as zero. */
  function PriceOf(prices: map<Address, nat>, a: Address): nat
  {
    if a in prices then prices[a] else 0
  }

  /** The batch decimals of an asset; an asset the batch did not price reads as zero. */
  function DecimalsOf(decimals: map<Address, nat>, a: Address): nat
  {
    if a in decimals then decimals[a] else 0
  }

  /** A holding can be valued: it is empty, or its asset has a non-zero price in the batch. */
  predicate Priced(h: Holding, prices: map<Address, nat>)
  {
    h.amount == 0 || PriceOf(prices, h.asset) != 0
  }

  /** Every holding of the list can be valued. */
  predicate AllPriced(hs: seq<Holding>, prices: map<Address, nat>)
  {
    forall k | 0 <= k < |hs| :: Priced(hs[k], prices)
  }

  lemma AllPricedSnoc(hs: seq<Holding>, prices: map<Address, nat>)
    requires |hs| > 0
    ensures AllPriced(hs, prices) <==> AllPriced(hs[..|hs| - 1], prices) && Priced(hs[|hs| - 1], prices)
  {
    var p := hs[..|hs| - 1];
    assert forall k | 0 <= k < |p| :: hs[k] == p[k];
  }

  /** The value of one holding: `amount * price / 10^decimals` rounded down when the price is
      non-zero, otherwise zero, and valid unless a non-empty holding has no price. */
  function ValueHolding(h: Holding, prices: map<Address, nat>, decimals: map<Address, nat>): (v: FundHoldingsHistory)
    ensures v.amount == h.amount
    ensures v.validPrice <==> Priced(h, prices)
    ensures !v.validPrice || PriceOf(prices, h.asset) == 0 ==> v.assetGav == 0
  {
    var price := PriceOf(prices, h.asset);
    if price != 0 then
      FundHoldingsHistory(h.amount, FloorDiv(h.amount * price, TenToThePowerOf(DecimalsOf(decimals, h.asset))), true)
    else if h.amount == 0 then
      FundHoldingsHistory(h.amount, 0, true)
    else
      FundHoldingsHistory(h.amount, 0, false)
  }

  /** The value of a holding is `amount * price / 10^decimals` rounded down: it lies within one
      unit of the exact scaled product, whichever branch computed it. */
  lemma HoldingValueFloor(h: Holding, prices: map<Address, nat>, decimals: map<Address, nat>)
    ensures var v := ValueHolding(h, prices, decimals);
            var scale := TenToThePowerOf(DecimalsOf(decimals, h.asset));
            v.assetGav * scale <= h.amount * PriceOf(prices, h.asset) < (v.assetGav + 1) * scale
  {
    var scale := TenToThePowerOf(DecimalsOf(decimals, h.asset));
    var product := h.amount * PriceOf(prices, h.asset);
    if PriceOf(prices, h.asset) != 0 {
      FloorDivBounds(product, scale);
    } else {
      assert product == 0;
    }
  }

  /** What one valued holding adds to its asset's network totals. */
  function Contribution(v: FundHoldingsHistory): NetworkAssetHistory
  {
    NetworkAssetHistory(v.amount, v.assetGav, if v.amount != 0 then 1 else 0, if v.validPrice then 0 else 1)
  }

  /** Field-wise sum of network asset totals. */
  function AddTotals(a: NetworkAssetHistory, b: NetworkAssetHistory): NetworkAssetHistory
  {
    NetworkAssetHistory(a.amount + b.amount, a.assetGav + b.assetGav,
                        a.numberOfFunds + b.numberOfFunds, a.invalidPrices + b.invalidPrices)
  }

  /** Running state of the holdings loop of one fund. */
  datatype Valuation = Valuation(
    valid: bool,
    records: map<(Address, int, Address), FundHoldingsHistory>,
    networkAssets: map<(Address, int), NetworkAssetHistory>)

  /** One iteration of the holdings loop of fund `fund` at batch `ts`. */
  function ValueStep(fund: Address, ts: int, prices: map<Address, nat>, decimals: map<Address, nat>,
                     acc: Valuation, h: Holding): Valuation
  {
    var v := ValueHolding(h, prices, decimals);
    var key := (h.asset, ts);
    Valuation(
      acc.valid && v.validPrice,
      if h.amount != 0 then acc.records[(fund, ts, h.asset) := v] else acc.records,
      acc.networkAssets[key := AddTotals(NetworkAssetOf(acc.networkAssets, key), Contribution(v))])
  }

  /** The holdings loop of one fund, starting with the fund flagged valid. */
  function ValueHoldings(fund: Address, ts: int, hs: seq<Holding>,
                         prices: map<Address, nat>, decimals: map<Address, nat>,
                         records: map<(Address, int, Address), FundHoldingsHistory>,
                         networkAssets: map<(Address, int), NetworkAssetHistory>): (r: Valuation)
    decreases |hs|
  {
    if |hs| == 0 then Valuation(true, records, networkAssets)
    else
      var p := hs[..|hs| - 1];
      var prev := ValueHoldings(fund, ts, p, prices, decimals, records, networkAssets);
      ValueStep(fund, ts, prices, decimals, prev, hs[|hs| - 1])
  }

  lemma ValueHoldingsSnoc(fund: Address, ts: int, hs: seq<Holding>,
                          prices: map<Address, nat>, decimals: map<Address, nat>,
                          records: map<(Address, int, Address), FundHoldingsHistory>,
                          networkAssets: map<(Address, int), NetworkAssetHistory>)
    requires |hs| > 0
    ensures var h := hs[|hs| - 1];
            var prev := ValueHoldings(fund, ts, hs[..|hs| - 1], prices, decimals, records, networkAssets);
            var r := ValueHoldings(fund, ts, hs, prices, decimals, records, networkAssets);
            r == ValueStep(fund, ts, prices, decimals, prev, h)
  {
  }

  /** Invalidity propagation: the fund's flag ends false exactly when some non-empty holding
      has no price, and one such holding does not stop the loop. */
  lemma {:induction false} FundFlagIffAllPriced(fund: Address, ts: int, hs: seq<Holding>,
                                                prices: map<Address, nat>, decimals: map<Address, nat>,
                                                records: map<(Address, int, Address), FundHoldingsHistory>,
                                                networkAssets: map<(Address, int), NetworkAssetHistory>)
    ensures ValueHoldings(fund, ts, hs, prices, decimals, records, networkAssets).valid <==> AllPriced(hs, prices)
    decreases |hs|
  {
    if |hs| > 0 {
      FundFlagIffAllPriced(fund, ts, hs[..|hs| - 1], prices, decimals, records, networkAssets);
      AllPricedSnoc(hs, prices);
      ValueHoldingsSnoc(fund, ts, hs, prices, decimals, records, networkAssets);
    }
  }

  /** Reference sum: what the holdings of `hs` in asset `a` add to that asset's network totals. */
  function AssetContribution(hs: seq<Holding>, a: Address, prices: map<Address, nat>, decimals: map<Address, nat>): NetworkAssetHistory
    decreases |hs|
  {
    if |hs| == 0 then NetworkAssetHistory(0, 0, 0, 0)
    else
      var h := hs[|hs| - 1];
      var rest := AssetContribution(hs[..|hs| - 1], a, prices, decimals);
      if h.asset == a then AddTotals(rest, Contribution(ValueHolding(h, prices, decimals))) else rest
  }

  /** The network totals of every asset grow by exactly its holdings' contribution, whether the
      fund turns out valid or not. */
  lemma {:induction false} NetworkAssetsAdditive(fund: Address, ts: int, hs: seq<Holding>,
                                                 prices: map<Address, nat>, decimals: map<Address, nat>,
                                                 records: map<(Address, int, Address), FundHoldingsHistory>,
                                                 networkAssets: map<(Address, int), NetworkAssetHistory>, a: Address)
    ensures NetworkAssetOf(ValueHoldings(fund, ts, hs, prices, decimals, records, networkAssets).networkAssets, (a, ts))
            == AddTotals(NetworkAssetOf(networkAssets, (a, ts)), AssetContribution(hs, a, prices, decimals))
    decreases |hs|
  {
    if |hs| > 0 {
      var p := hs[..|hs| - 1];
      var h := hs[|hs| - 1];
      NetworkAssetsAdditive(fund, ts, p, prices, decimals, records, networkAssets, a);
      var prev := ValueHoldings(fund, ts, p, prices, decimals, records, networkAssets).networkAssets;
      var c := Contribution(ValueHolding(h, prices, decimals));
      var r := ValueHoldings(fund, ts, hs, prices, decimals, records, networkAssets).networkAssets;
      assert r == prev[(h.asset, ts) := AddTotals(NetworkAssetOf(prev, (h.asset, ts)), c)];
      if h.asset == a {
        assert AssetContribution(hs, a, prices, decimals) == AddTotals(AssetContribution(p, a, prices, decimals), c);
      } else {
        assert (h.asset, ts) != (a, ts);
        assert AssetContribution(hs, a, prices, decimals) == AssetContribution(p, a, prices, decimals);
      }
    }
  }

  /** The network asset keys the holdings of `hs` touch at batch `ts`. */
  function TouchedAssets(hs: seq<Holding>, ts: int): set<(Address, int)>
  {
    set k | 0 <= k < |hs| :: (hs[k].asset, ts)
  }

  lemma TouchedAssetsSnoc(hs: seq<Holding>, ts: int)
    requires |hs| > 0
    ensures TouchedAssets(hs, ts) == TouchedAssets(hs[..|hs| - 1], ts) + {(hs[|hs| - 1].asset, ts)}
  {
    var p := hs[..|hs| - 1];
    forall key | key in TouchedAssets(hs, ts) ensures key in TouchedAssets(p, ts) + {(hs[|hs| - 1].asset, ts)} {
      var k :| 0 <= k < |hs| && key == (hs[k].asset, ts);
      if k < |p| { assert hs[k] == p[k]; }
    }
    forall key | key in TouchedAssets(p, ts) ensures key in TouchedAssets(hs, ts) {
      var k :| 0 <= k < |p| && key == (p[k].asset, ts);
      assert hs[k] == p[k];
    }
    assert (hs[|hs| - 1].asset, ts) == (hs[|p|].asset, ts);
  }

  /** A network asset record is written at (asset, batch timestamp) for every holding, including
      the empty ones, and records at other timestamps stay as they were. */
  lemma {:induction false} NetworkAssetKeys(fund: Address, ts: int, hs: seq<Holding>,
                                            prices: map<Address, nat>, decimals: map<Address, nat>,
                                            records: map<(Address, int, Address), FundHoldingsHistory>,
                                            networkAssets: map<(Address, int), NetworkAssetHistory>)
    ensures var r := ValueHoldings(fund, ts, hs, prices, decimals, records, networkAssets).networkAssets;
            && r.Keys == networkAssets.Keys + TouchedAssets(hs, ts)
            && (forall key | key in networkAssets && key.1 != ts :: r[key] == networkAssets[key])
    decreases |hs|
  {
    if |hs| == 0 {
      assert TouchedAssets(hs, ts) == {};
    } else {
      var p := hs[..|hs| - 1];
      var h := hs[|hs| - 1];
      NetworkAssetKeys(fund, ts, p, prices, decimals, records, networkAssets);
      TouchedAssetsSnoc(hs, ts);
      var prev := ValueHoldings(fund, ts, p, prices, decimals, records, networkAssets).networkAssets;
      var c := Contribution(ValueHolding(h, prices, decimals));
      var r := ValueHoldings(fund, ts, hs, prices, decimals, records, networkAssets).networkAssets;
      assert r == prev[(h.asset, ts) := AddTotals(NetworkAssetOf(prev, (h.asset, ts)), c)];
    }
  }

  /** A holding adds to its asset's invalid count only if it also adds to its fund count,
      and the invalid count is positive exactly when some holding of that asset has no price. */
  lemma {:induction false} InvalidCountsFlagged(hs: seq<Holding>, a: Address,
                                                prices: map<Address, nat>, decimals: map<Address, nat>)
    ensures AssetContribution(hs, a, prices, decimals).invalidPrices
              <= AssetContribution(hs, a, prices, decimals).numberOfFunds
    ensures (AssetContribution(hs, a, prices, decimals).invalidPrices > 0)
            <==> (exists k | 0 <= k < |hs| :: hs[k].asset == a && !Priced(hs[k], prices))
    decreases |hs|
  {
    if |hs| > 0 {
      var p := hs[..|hs| - 1];
      InvalidCountsFlagged(p, a, prices, decimals);
      assert forall k | 0 <= k < |p| :: hs[k] == p[k];
      if exists k | 0 <= k < |hs| :: hs[k].asset == a && !Priced(hs[k], prices) {
        var k :| 0 <= k < |hs| && hs[k].asset == a && !Priced(hs[k], prices);
        if k < |p| {
          assert p[k].asset == a && !Priced(p[k], prices);
        }
      }
    }
  }

  /** Position `k` holds the last non-empty holding of its asset. */
  predicate IsLastNonEmpty(hs: seq<Holding>, k: int)
  {
    0 <= k < |hs| && hs[k].amount != 0
    && forall j | k < j < |hs| :: hs[j].asset != hs[k].asset || hs[j].amount == 0
  }

  /** The holding record keys the non-empty holdings of `hs` take for `fund` at batch `ts`. */
  function RecordedHoldings(fund: Address, ts: int, hs: seq<Holding>): set<(Address, int, Address)>
  {
    set k | 0 <= k < |hs| && hs[k].amount != 0 :: (fund, ts, hs[k].asset)
  }

  lemma RecordedHoldingsSnoc(fund: Address, ts: int, hs: seq<Holding>)
    requires |hs| > 0
    ensures var h := hs[|hs| - 1];
            RecordedHoldings(fund, ts, hs)
              == RecordedHoldings(fund, ts, hs[..|hs| - 1]) + (if h.amount != 0 then {(fund, ts, h.asset)} else {})
  {
    var p := hs[..|hs| - 1];
    var h := hs[|hs| - 1];
    forall key | key in RecordedHoldings(fund, ts, hs)
      ensures key in RecordedHoldings(fund, ts, p) + (if h.amount != 0 then {(fund, ts, h.asset)} else {})
    {
      var k :| 0 <= k < |hs| && hs[k].amount != 0 && key == (fund, ts, hs[k].asset);
      if k < |p| { assert hs[k] == p[k]; }
    }
    forall key | key in RecordedHoldings(fund, ts, p) ensures key in RecordedHoldings(fund, ts, hs) {
      var k :| 0 <= k < |p| && p[k].amount != 0 && key == (fund, ts, p[k].asset);
      assert hs[k] == p[k];
    }
    if h.amount != 0 {
      assert (fund, ts, h.asset) == (fund, ts, hs[|p|].asset);
    }
  }

  lemma RecordKeysStep(fund: Address, ts: int, hs: seq<Holding>,
                       records: map<(Address, int, Address), FundHoldingsHistory>,
                       prev: map<(Address, int, Address), FundHoldingsHistory>,
                       v: FundHoldingsHistory,
                       r: map<(Address, int, Address), FundHoldingsHistory>)
    requires |hs| > 0
    requires prev.Keys == records.Keys + RecordedHoldings(fund, ts, hs[..|hs| - 1])
    requires forall key | key in records && (key.0 != fund || key.1 != ts) :: prev[key] == records[key]
    requires var h := hs[|hs| - 1];
             r == if h.amount != 0 then prev[(fund, ts, h.asset) := v] else prev
    ensures r.Keys == records.Keys + RecordedHoldings(fund, ts, hs)
    ensures forall key | key in records && (key.0 != fund || key.1 != ts) :: r[key] == records[key]
  {
    RecordedHoldingsSnoc(fund, ts, hs);
  }

  /** The holding records the loop writes: exactly one key (fund, timestamp, asset) per non-empty
      holding, whether the fund is valid or not, and nothing for other funds or timestamps. */
  lemma {:induction false} HoldingRecordKeys(fund: Address, ts: int, hs: seq<Holding>,
                                             prices: map<Address, nat>, decimals: map<Address, nat>,
                                             records: map<(Address, int, Address), FundHoldingsHistory>,
                                             networkAssets: map<(Address, int), NetworkAssetHistory>)
    ensures var r := ValueHoldings(fund, ts, hs, prices, decimals, records, networkAssets).records;
            && r.Keys == records.Keys + RecordedHoldings(fund, ts, hs)
            && (forall key | key in records && (key.0 != fund || key.1 != ts) :: r[key] == records[key])
    decreases |hs|
  {
    if |hs| == 0 {
      assert RecordedHoldings(fund, ts, hs) == {};
    } else {
      var p := hs[..|hs| - 1];
      var h := hs[|hs| - 1];
      HoldingRecordKeys(fund, ts, p, prices, decimals, records, networkAssets);
      var prev := ValueHoldings(fund, ts, p, prices, decimals, records, networkAssets).records;
      ValueHoldingsSnoc(fund, ts, hs, prices, decimals, records, networkAssets);
      var r := ValueHoldings(fund, ts, hs, prices, decimals, records, networkAssets).records;
      var v := ValueHolding(h, prices, decimals);
      if h.amount != 0 {
        assert r == prev[(fund, ts, h.asset) := v];
      } else {
        assert r == prev;
      }
      RecordKeysStep(fund, ts, hs, records, prev, v, r);
    }
  }

  lemma RecordValuesStep(fund: Address, ts: int, hs: seq<Holding>,
                         prices: map<Address, nat>, decimals: map<Address, nat>,
                         prev: map<(Address, int, Address), FundHoldingsHistory>,
                         r: map<(Address, int, Address), FundHoldingsHistory>)
    requires |hs| > 0
    requires var p := hs[..|hs| - 1];
             forall k | IsLastNonEmpty(p, k) :: (fund, ts, p[k].asset) in prev
                                                && prev[(fund, ts, p[k].asset)] == ValueHolding(p[k], prices, decimals)
    requires var h := hs[|hs| - 1];
             r == if h.amount != 0 then prev[(fund, ts, h.asset) := ValueHolding(h, prices, decimals)] else prev
    ensures forall k | IsLastNonEmpty(hs, k) :: (fund, ts, hs[k].asset) in r
                                                && r[(fund, ts, hs[k].asset)] == ValueHolding(hs[k], prices, decimals)
  {
    var p := hs[..|hs| - 1];
    var h := hs[|hs| - 1];
    forall k | IsLastNonEmpty(hs, k)
      ensures (fund, ts, hs[k].asset) in r && r[(fund, ts, hs[k].asset)] == ValueHolding(hs[k], prices, decimals)
    {
      if k < |p| {
        assert hs[k] == p[k];
        assert IsLastNonEmpty(p, k);
        if h.amount != 0 {
          assert h.asset != hs[k].asset;
        }
      }
    }
  }

  /** The last non-empty holding of each asset decides the record stored for that asset. */
  lemma {:induction false} HoldingRecordValues(fund: Address, ts: int, hs: seq<Holding>,
                                               prices: map<Address, nat>, decimals: map<Address, nat>,
                                               records: map<(Address, int, Address), FundHoldingsHistory>,
                                               networkAssets: map<(Address, int), NetworkAssetHistory>)
    ensures var r := ValueHoldings(fund, ts, hs, prices, decimals, records, networkAssets).records;
            forall k | IsLastNonEmpty(hs, k) :: (fund, ts, hs[k].asset) in r
                                                && r[(fund, ts, hs[k].asset)] == ValueHolding(hs[k], prices, decimals)
    decreases |hs|
  {
    if |hs| > 0 {
      var p := hs[..|hs| - 1];
      var h := hs[|hs| - 1];
      HoldingRecordValues(fund, ts, p, prices, decimals, records, networkAssets);
      var prev := ValueHoldings(fund, ts, p, prices, decimals, records, networkAssets).records;
      ValueHoldingsSnoc(fund, ts, hs, prices, decimals, records, networkAssets);
      var r := ValueHoldings(fund, ts, hs, prices, decimals, records, networkAssets).records;
      if h.amount != 0 {
        assert r == prev[(fund, ts, h.asset) := ValueHolding(h, prices, decimals)];
      } else {
        assert r == prev;
      }
      RecordValuesStep(fund, ts, hs, prices, decimals, prev, r);
    }
  }
}
