/**
 * Price ingestion: one pass over the oracle's batch that records every price of
 * a known asset, counts the assets and the zero ("invalidated") prices, and
 * builds the asset-to-price and asset-to-decimals lookups the valuation uses.
 */
module PriceIngest {
  import opened Types
  import opened Entities

  /** One (token, price) pair of the batch; the event's two parallel arrays, zipped. */
  datatype PriceEntry = PriceEntry(token: Address, price: nat)

  /** What the pass produces: updated asset records and history, the two counters, the lookups. */
  datatype Ingested = Ingested(
    assets: map<Address, Asset>,
    history: map<(Address, int), AssetPriceHistory>,
    numberOfAssets: nat,
    invalidPrices: nat,
    prices: map<Address, nat>,
    decimals: map<Address, nat>)

  /** Positions of the batch whose token is a known asset. */
  function KnownIndices(batch: seq<PriceEntry>, assets: map<Address, Asset>): set<int>
  {
    set i | 0 <= i < |batch| && batch[i].token in assets
  }

  /** Positions of the batch whose token is a known asset and whose price is zero. */
  function ZeroPriceIndices(batch: seq<PriceEntry>, assets: map<Address, Asset>): set<int>
  {
    set i | 0 <= i < |batch| && batch[i].token in assets && batch[i].price == 0
  }

  /** The known assets the batch mentions at least once. */
  function KnownTokens(batch: seq<PriceEntry>, assets: map<Address, Asset>): set<Address>
  {
    set i | 0 <= i < |batch| && batch[i].token in assets :: batch[i].token
  }

  /** Position `i` holds the last entry of the batch for its token. */
  predicate IsLastEntry(batch: seq<PriceEntry>, i: int)
  {
    0 <= i < |batch| && forall j | i < j < |batch| :: batch[j].token != batch[i].token
  }

  /** What the last entry `e` for a known asset leaves behind once the batch is ingested. */
  predicate Recorded(g: Ingested, assets: map<Address, Asset>, e: PriceEntry, ts: int)
    requires e.token in assets
  {
    && e.token in g.prices && g.prices[e.token] == e.price
    && e.token in g.assets
    && g.assets[e.token] == assets[e.token].(lastPrice := e.price, lastPriceUpdate := ts, lastPriceValid := e.price != 0)
    && (e.token, ts) in g.history
    && g.history[(e.token, ts)] == AssetPriceHistory(e.price, e.price != 0)
  }

  /** One iteration of the ingestion loop: an unknown token is skipped outright. */
  function IngestEntry(g: Ingested, e: PriceEntry, ts: int): Ingested
  {
    if e.token !in g.assets then g
    else
      var asset := g.assets[e.token];
      var valid := e.price != 0;
      Ingested(
        g.assets[e.token := asset.(lastPrice := e.price, lastPriceUpdate := ts, lastPriceValid := valid)],
        g.history[(e.token, ts) := AssetPriceHistory(e.price, valid)],
        g.numberOfAssets + 1,
        if valid then g.invalidPrices else g.invalidPrices + 1,
        g.prices[e.token := e.price],
        g.decimals[e.token := asset.decimals])
  }

  /** The ingestion loop over the whole batch, with both counters and both lookups starting empty. */
  function Ingest(assets: map<Address, Asset>, history: map<(Address, int), AssetPriceHistory>,
                  batch: seq<PriceEntry>, ts: int): (g: Ingested)
    ensures g.assets.Keys == assets.Keys
    ensures forall t | t in assets :: g.assets[t].decimals == assets[t].decimals
    ensures g.invalidPrices <= g.numberOfAssets
    decreases |batch|
  {
    if |batch| == 0 then Ingested(assets, history, 0, 0, map[], map[])
    else IngestEntry(Ingest(assets, history, batch[..|batch| - 1], ts), batch[|batch| - 1], ts)
  }

  lemma KnownIndicesSnoc(batch: seq<PriceEntry>, assets: map<Address, Asset>)
    requires |batch| > 0
    ensures var p := batch[..|batch| - 1];
            KnownIndices(batch, assets) ==
              KnownIndices(p, assets) + (if batch[|batch| - 1].token in assets then {|p|} else {})
    ensures var p := batch[..|batch| - 1];
            ZeroPriceIndices(batch, assets) ==
              ZeroPriceIndices(p, assets)
              + (if batch[|batch| - 1].token in assets && batch[|batch| - 1].price == 0 then {|p|} else {})
    ensures var p := batch[..|batch| - 1];
            KnownTokens(batch, assets) ==
              KnownTokens(p, assets) + (if batch[|batch| - 1].token in assets then {batch[|batch| - 1].token} else {})
  {
    var p := batch[..|batch| - 1];
    var e := batch[|batch| - 1];
    assert forall i | 0 <= i < |p| :: batch[i] == p[i];
    if e.token in assets {
      assert e.token == batch[|p|].token;
    }
    assert forall t | t in KnownTokens(p, assets) :: t in KnownTokens(batch, assets) by {
      forall t | t in KnownTokens(p, assets) ensures t in KnownTokens(batch, assets) {
        var i :| 0 <= i < |p| && p[i].token in assets && p[i].token == t;
        assert batch[i].token == t;
      }
    }
  }

  /** The batch record's counters: `numberOfAssets` counts the known-asset entries and
      `invalidPrices` the known-asset entries priced zero; unknown tokens count for nothing. */
  lemma {:induction false} IngestCounts(assets: map<Address, Asset>, history: map<(Address, int), AssetPriceHistory>,
                                        batch: seq<PriceEntry>, ts: int)
    ensures Ingest(assets, history, batch, ts).numberOfAssets == |KnownIndices(batch, assets)|
    ensures Ingest(assets, history, batch, ts).invalidPrices == |ZeroPriceIndices(batch, assets)|
    ensures ZeroPriceIndices(batch, assets) <= KnownIndices(batch, assets)
    decreases |batch|
  {
    if |batch| == 0 {
      assert KnownIndices(batch, assets) == {};
      assert ZeroPriceIndices(batch, assets) == {};
    } else {
      var p := batch[..|batch| - 1];
      IngestCounts(assets, history, p, ts);
      KnownIndicesSnoc(batch, assets);
      assert |p| !in KnownIndices(p, assets);
      assert |p| !in ZeroPriceIndices(p, assets);
    }
  }

  /** The two lookups hold exactly the known assets the batch mentions, and the decimals
      lookup carries each asset's own decimals; unknown tokens never enter either. */
  lemma {:induction false} IngestLookups(assets: map<Address, Asset>, history: map<(Address, int), AssetPriceHistory>,
                                         batch: seq<PriceEntry>, ts: int)
    ensures var g := Ingest(assets, history, batch, ts);
            && g.prices.Keys == KnownTokens(batch, assets)
            && g.decimals.Keys == KnownTokens(batch, assets)
            && forall t | t in g.decimals :: t in assets && g.decimals[t] == assets[t].decimals
    decreases |batch|
  {
    if |batch| == 0 {
      assert KnownTokens(batch, assets) == {};
    } else {
      IngestLookups(assets, history, batch[..|batch| - 1], ts);
      KnownIndicesSnoc(batch, assets);
    }
  }

  /** The last entry of the batch for a known asset decides that asset's stored price,
      validity (false exactly for a zero price), history entry and looked-up price. */
  lemma {:induction false} IngestLastEntry(assets: map<Address, Asset>, history: map<(Address, int), AssetPriceHistory>,
                                           batch: seq<PriceEntry>, ts: int)
    ensures forall i | IsLastEntry(batch, i) && batch[i].token in assets ::
              Recorded(Ingest(assets, history, batch, ts), assets, batch[i], ts)
    decreases |batch|
  {
    if |batch| > 0 {
      var p := batch[..|batch| - 1];
      var e := batch[|batch| - 1];
      IngestLastEntry(assets, history, p, ts);
      forall i | IsLastEntry(batch, i) && batch[i].token in assets
        ensures Recorded(Ingest(assets, history, batch, ts), assets, batch[i], ts)
      {
        if i < |p| {
          assert batch[i] == p[i];
          assert IsLastEntry(p, i);
          assert e.token != batch[i].token;
        }
      }
    }
  }

  /** Assets the batch does not price keep their records, and history changes only at
      (asset, batch timestamp) for the known assets the batch prices. */
  lemma {:induction false} IngestFrame(assets: map<Address, Asset>, history: map<(Address, int), AssetPriceHistory>,
                                       batch: seq<PriceEntry>, ts: int)
    ensures var g := Ingest(assets, history, batch, ts);
            && (forall t | t in assets && t !in KnownTokens(batch, assets) :: g.assets[t] == assets[t])
            && g.history.Keys == history.Keys + (set t | t in KnownTokens(batch, assets) :: (t, ts))
            && (forall k | k in history && (k.1 != ts || k.0 !in KnownTokens(batch, assets)) :: g.history[k] == history[k])
    decreases |batch|
  {
    if |batch| == 0 {
      assert KnownTokens(batch, assets) == {};
    } else {
      IngestFrame(assets, history, batch[..|batch| - 1], ts);
      KnownIndicesSnoc(batch, assets);
    }
  }
}
