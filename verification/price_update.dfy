/**
 * The price-update handler as a whole: the rate gate, price ingestion and the
 * price-update record, then, when a registry is registered, the fold over every
 * fund of every version of that registry and the network snapshot.
 */
module PriceUpdate {
  import opened Types
  import opened Entities
  import opened PriceIngest
  import opened Holdings
  import opened Funds

  /** Minimum number of seconds between two processed batches. */
  const PriceUpdateInterval: int := 300

  /** A batch arriving less than the interval after the last processed one is dropped. */
  predicate RateLimited(now: int, last: int)
  {
    now - last < PriceUpdateInterval
  }

  /** The oracle's event: block timestamp, emitting contract, and the (token, price) batch. */
  datatype PriceUpdateEvent = PriceUpdateEvent(timestamp: int, priceSource: Address, batch: seq<PriceEntry>)

  /** A handler run either commits a new store, or aborts and leaves no trace. */
  datatype Outcome = Committed(store: Store) | Aborted

  /** Reference definition: the fund lists of the versions joined in version order, a fund listed
      by two versions (or twice by one) appearing once per listing. */
  function JoinFunds(vs: seq<Address>, known: map<Address, seq<Address>>): seq<Address>
    requires forall i | 0 <= i < |vs| :: vs[i] in known
    decreases |vs|
  {
    if |vs| == 0 then [] else known[vs[0]] + JoinFunds(vs[1..], known)
  }

  lemma {:induction false} JoinFundsSnoc(vs: seq<Address>, known: map<Address, seq<Address>>)
    requires |vs| > 0 && forall i | 0 <= i < |vs| :: vs[i] in known
    ensures JoinFunds(vs, known) == JoinFunds(vs[..|vs| - 1], known) + known[vs[|vs| - 1]]
    decreases |vs|
  {
    if |vs| == 1 {
      assert vs[..0] == [];
    } else {
      var t := vs[1..];
      JoinFundsSnoc(t, known);
      assert t[..|t| - 1] == vs[..|vs| - 1][1..];
      assert t[|t| - 1] == vs[|vs| - 1];
    }
  }

  /** The funds of the given versions, in version order with repeats kept, or None when one of the
      versions is not loaded. */
  function FundsOfVersions(vs: seq<Address>, known: map<Address, seq<Address>>): (r: Option<seq<Address>>)
    ensures r.Some? <==> forall i | 0 <= i < |vs| :: vs[i] in known
    ensures r.Some? ==> r.value == JoinFunds(vs, known)
    ensures r.Some? ==> forall f :: f in r.value <==> exists i | 0 <= i < |vs| :: vs[i] in known && f in known[vs[i]]
    decreases |vs|
  {
    if |vs| == 0 then Some([])
    else
      var v := vs[|vs| - 1];
      match FundsOfVersions(vs[..|vs| - 1], known)
      case None => None
      case Some(fs) =>
        if v in known then
          JoinFundsSnoc(vs, known);
          Some(fs + known[v])
        else None
  }

  /** The store after the ingestion stage: asset records, price history, the batch's
      price-update record and the process state's last update time. */
  function RecordPrices(s: Store, e: PriceUpdateEvent): Store
  {
    var g := Ingest(s.assets, s.priceHistory, e.batch, e.timestamp);
    s.(assets := g.assets, priceHistory := g.history,
       priceUpdates := s.priceUpdates[e.timestamp := AssetPriceUpdate(e.priceSource, g.numberOfAssets, g.invalidPrices)],
       state := s.state.(lastPriceUpdate := e.timestamp))
  }

  /** The fund stages followed by the network snapshot at the batch timestamp. */
  function ValueNetwork(s1: Store, chain: Chain, g: Ingested, ts: int, fs: seq<Address>): (r: Store)
    ensures r.state == s1.state && r.assets == s1.assets
    ensures r.priceHistory == s1.priceHistory && r.priceUpdates == s1.priceUpdates
    ensures r.networkHistory.Keys == s1.networkHistory.Keys + {ts}
    ensures forall t | t in s1.networkHistory && t != ts :: r.networkHistory[t] == s1.networkHistory[t]
  {
    var p := ProcessFunds(chain, g.prices, g.decimals, ts, FundsPass(s1, 0, true), fs);
    p.store.(networkHistory := p.store.networkHistory[ts := MelonNetworkHistory(p.gav, p.validGav)])
  }

  /** The whole handler. */
  function HandlePriceUpdate(s: Store, chain: Chain, e: PriceUpdateEvent): (r: Outcome)
    ensures r == Committed(s) <==> RateLimited(e.timestamp, s.state.lastPriceUpdate)
    ensures r.Committed? && !RateLimited(e.timestamp, s.state.lastPriceUpdate) ==>
              r.store.state == s.state.(lastPriceUpdate := e.timestamp)
  {
    if RateLimited(e.timestamp, s.state.lastPriceUpdate) then Committed(s)
    else
      var g := Ingest(s.assets, s.priceHistory, e.batch, e.timestamp);
      var s1 := RecordPrices(s, e);
      match s.state.registry
      case None => Committed(s1)
      case Some(reg) =>
        if reg !in s1.registries then Committed(s1)
        else
          match FundsOfVersions(s1.registries[reg], s1.versions)
          case None => Aborted
          case Some(fs) => Committed(ValueNetwork(s1, chain, g, e.timestamp, fs))
  }

  /** The store a run that gets past the gate and finds a registry works on. */
  predicate Registered(s: Store)
  {
    s.state.registry.Some? && s.state.registry.value in s.registries
  }

  /** A run aborts exactly when it gets past the gate, finds the registry, and one of the
      registry's versions is not loaded. */
  lemma AbortsOnMissingVersion(s: Store, chain: Chain, e: PriceUpdateEvent)
    ensures HandlePriceUpdate(s, chain, e).Aborted?
            <==> && !RateLimited(e.timestamp, s.state.lastPriceUpdate)
                 && Registered(s)
                 && exists i | 0 <= i < |s.registries[s.state.registry.value]| ::
                      s.registries[s.state.registry.value][i] !in s.versions
  {
    if !RateLimited(e.timestamp, s.state.lastPriceUpdate) && Registered(s) {
      var vs := s.registries[s.state.registry.value];
      assert RecordPrices(s, e).registries == s.registries && RecordPrices(s, e).versions == s.versions;
      if FundsOfVersions(vs, s.versions).Some? {
        assert forall i | 0 <= i < |vs| :: vs[i] in s.versions;
      }
    }
  }

  /** Without a registered registry the run stops after ingestion: no fund entity and no
      network snapshot is written. */
  lemma NoRegistryNoSnapshot(s: Store, chain: Chain, e: PriceUpdateEvent)
    requires !RateLimited(e.timestamp, s.state.lastPriceUpdate) && !Registered(s)
    ensures var r := HandlePriceUpdate(s, chain, e);
            && r.Committed?
            && r.store.networkHistory == s.networkHistory
            && r.store.funds == s.funds
            && r.store.fundHoldings == s.fundHoldings
            && r.store.networkAssets == s.networkAssets
            && r.store.calculations == s.calculations
            && r.store.investments == s.investments
            && r.store.investmentHistory == s.investmentHistory
            && r.store.investorHistory == s.investorHistory
  {
  }

  /** Every committed run past the gate carries the batch's price-update record, with the
      count of entries for known assets and the count of those with a zero price, and the
      asset records and price history of the ingestion pass. */
  lemma PriceUpdateRecorded(s: Store, chain: Chain, e: PriceUpdateEvent)
    requires !RateLimited(e.timestamp, s.state.lastPriceUpdate)
    requires HandlePriceUpdate(s, chain, e).Committed?
    ensures var r := HandlePriceUpdate(s, chain, e).store;
            var g := Ingest(s.assets, s.priceHistory, e.batch, e.timestamp);
            && e.timestamp in r.priceUpdates
            && r.priceUpdates[e.timestamp] == AssetPriceUpdate(e.priceSource, |KnownIndices(e.batch, s.assets)|,
                                                                |ZeroPriceIndices(e.batch, s.assets)|)
            && r.assets == g.assets
            && r.priceHistory == g.history
  {
    IngestCounts(s.assets, s.priceHistory, e.batch, e.timestamp);
    var s1 := RecordPrices(s, e);
    assert e.timestamp in s1.priceUpdates;
  }

  /** Past the gate, with a registered registry whose versions are all loaded, the run commits
      the fund stages and the network snapshot on top of the ingestion stage, and the funds it
      sees are those of the store it was given. */
  lemma RunsFundStages(s: Store, chain: Chain, e: PriceUpdateEvent)
    requires !RateLimited(e.timestamp, s.state.lastPriceUpdate) && Registered(s)
    requires forall v | v in s.registries[s.state.registry.value] :: v in s.versions
    ensures FundsOfVersions(s.registries[s.state.registry.value], s.versions).Some?
    ensures HandlePriceUpdate(s, chain, e)
            == Committed(ValueNetwork(RecordPrices(s, e), chain, Ingest(s.assets, s.priceHistory, e.batch, e.timestamp),
                                      e.timestamp, FundsOfVersions(s.registries[s.state.registry.value], s.versions).value))
    ensures Bindings(RecordPrices(s, e)) == Bindings(s)
  {
    var vs := s.registries[s.state.registry.value];
    assert forall i | 0 <= i < |vs| :: vs[i] in s.versions;
  }

  /** With a registered registry whose versions are all loaded, the run adds exactly one network
      snapshot, at the batch timestamp, and keeps the others; the snapshot holds the sum of the GAVs of exactly the loaded funds that the batch's
      prices value in full, and is flagged valid exactly when every loaded fund is so valued. */
  lemma NetworkSnapshot(s: Store, chain: Chain, e: PriceUpdateEvent)
    requires !RateLimited(e.timestamp, s.state.lastPriceUpdate) && Registered(s)
    requires forall v | v in s.registries[s.state.registry.value] :: v in s.versions
    ensures var r := HandlePriceUpdate(s, chain, e);
            var prices := Ingest(s.assets, s.priceHistory, e.batch, e.timestamp).prices;
            var fs := JoinFunds(s.registries[s.state.registry.value], s.versions);
            && r.Committed?
            && r.store.networkHistory.Keys == s.networkHistory.Keys + {e.timestamp}
            && (forall t | t in s.networkHistory && t != e.timestamp :: r.store.networkHistory[t] == s.networkHistory[t])
            && r.store.networkHistory[e.timestamp]
               == MelonNetworkHistory(ValidGavSum(Bindings(s), chain, prices, fs),
                                      AllLoadedPriced(Bindings(s), chain, prices, fs))
  {
    RunsFundStages(s, chain, e);
    var g := Ingest(s.assets, s.priceHistory, e.batch, e.timestamp);
    var s1 := RecordPrices(s, e);
    var fs := FundsOfVersions(s.registries[s.state.registry.value], s.versions).value;
    NetworkGavIsValidSum(chain, g.prices, g.decimals, e.timestamp, FundsPass(s1, 0, true), fs);
  }

  /** With a registered registry whose versions are all loaded, the run writes a valuation
      record at the batch timestamp for exactly the loaded funds that the batch's prices value
      in full, and keeps the records of other batches. */
  lemma ValuationSnapshots(s: Store, chain: Chain, e: PriceUpdateEvent)
    requires !RateLimited(e.timestamp, s.state.lastPriceUpdate) && Registered(s)
    requires forall v | v in s.registries[s.state.registry.value] :: v in s.versions
    ensures var r := HandlePriceUpdate(s, chain, e);
            var prices := Ingest(s.assets, s.priceHistory, e.batch, e.timestamp).prices;
            var fs := JoinFunds(s.registries[s.state.registry.value], s.versions);
            && r.Committed?
            && r.store.calculations.Keys
               == s.calculations.Keys + PricedFundKeys(Bindings(s), chain, prices, fs, e.timestamp)
            && forall k | k in s.calculations && k.1 != e.timestamp :: r.store.calculations[k] == s.calculations[k]
  {
    RunsFundStages(s, chain, e);
    var g := Ingest(s.assets, s.priceHistory, e.batch, e.timestamp);
    var s1 := RecordPrices(s, e);
    var fs := FundsOfVersions(s.registries[s.state.registry.value], s.versions).value;
    CalculationsWritten(chain, g.prices, g.decimals, e.timestamp, FundsPass(s1, 0, true), fs);
  }

  /** With a registered registry whose versions are all loaded, each asset's network totals for the
      batch are what they were plus the holdings of every loaded fund, including the funds whose
      valuation was skipped for an unpriced holding. */
  lemma AssetTotalsSnapshot(s: Store, chain: Chain, e: PriceUpdateEvent, a: Address)
    requires !RateLimited(e.timestamp, s.state.lastPriceUpdate) && Registered(s)
    requires forall v | v in s.registries[s.state.registry.value] :: v in s.versions
    ensures var r := HandlePriceUpdate(s, chain, e);
            var g := Ingest(s.assets, s.priceHistory, e.batch, e.timestamp);
            var fs := JoinFunds(s.registries[s.state.registry.value], s.versions);
            && r.Committed?
            && NetworkAssetOf(r.store.networkAssets, (a, e.timestamp))
               == AddTotals(NetworkAssetOf(s.networkAssets, (a, e.timestamp)),
                            LoadedAssetSum(Bindings(s), chain, g.prices, g.decimals, fs, a))
  {
    RunsFundStages(s, chain, e);
    var g := Ingest(s.assets, s.priceHistory, e.batch, e.timestamp);
    var s1 := RecordPrices(s, e);
    var fs := FundsOfVersions(s.registries[s.state.registry.value], s.versions).value;
    NetworkAssetsAcrossFunds(chain, g.prices, g.decimals, e.timestamp, FundsPass(s1, 0, true), fs, a);
  }

  /** With a registered registry whose versions are all loaded, each investor's totals for the
      batch are what they were plus the investor's parts of every loaded fund that the batch's
      prices value in full, each part taken by the shares held before the batch. */
  lemma InvestorSnapshots(s: Store, chain: Chain, e: PriceUpdateEvent, investor: Address)
    requires !RateLimited(e.timestamp, s.state.lastPriceUpdate) && Registered(s)
    requires forall v | v in s.registries[s.state.registry.value] :: v in s.versions
    ensures var r := HandlePriceUpdate(s, chain, e);
            var prices := Ingest(s.assets, s.priceHistory, e.batch, e.timestamp).prices;
            var fs := JoinFunds(s.registries[s.state.registry.value], s.versions);
            && r.Committed?
            && InvestorValuationOf(r.store.investorHistory, (investor, e.timestamp))
               == AddValuations(InvestorValuationOf(s.investorHistory, (investor, e.timestamp)),
                                InvestorPartsSum(Bindings(s), s.investments, chain, prices, fs, investor))
  {
    RunsFundStages(s, chain, e);
    var g := Ingest(s.assets, s.priceHistory, e.batch, e.timestamp);
    var s1 := RecordPrices(s, e);
    var fs := FundsOfVersions(s.registries[s.state.registry.value], s.versions).value;
    InvestorTotalsAcrossFunds(chain, g.prices, g.decimals, e.timestamp, FundsPass(s1, 0, true), fs, investor);
  }
}
