/**
 * The entities the price-update handler reads and writes, and the store that
 * holds them. The store is one immutable record with one map per entity kind;
 * the string ids of the original (`fund + "/" + timestamp`, ...) become tuple keys.
 */
module Entities {
  import opened Types

  /** Process-wide singleton: time of the last accepted price update and the registry. */
  datatype ProcessState = ProcessState(lastPriceUpdate: int, registry: Option<Address>)

  /** The live record of a priced asset. */
  datatype Asset = Asset(decimals: nat, lastPrice: nat, lastPriceUpdate: int, lastPriceValid: bool)

  /** One record per accepted batch. */
  datatype AssetPriceUpdate = AssetPriceUpdate(priceSource: Address, numberOfAssets: nat, invalidPrices: nat)

  /** Snapshot of one asset's price at one batch, keyed by (asset, timestamp). */
  datatype AssetPriceHistory = AssetPriceHistory(price: nat, priceValid: bool)

  /** Value of one holding of one fund at one batch, keyed by (fund, timestamp, asset). */
  datatype FundHoldingsHistory = FundHoldingsHistory(amount: nat, assetGav: nat, validPrice: bool)

  /** Network-wide running totals for one asset at one batch, keyed by (asset, timestamp). */
  datatype NetworkAssetHistory = NetworkAssetHistory(amount: nat, assetGav: nat, numberOfFunds: nat, invalidPrices: nat)

  /** The contracts a fund's valuation is read from. */
  datatype FundContracts = FundContracts(accounting: Address, share: Address, participation: Address)

  /** A fund: the addresses of its contracts and its latest valuation. */
  datatype Fund = Fund(
    contracts: FundContracts,
    gav: nat,
    validPrice: bool,
    totalSupply: nat,
    feesInDenominationAsset: nat,
    feesInShares: nat,
    nav: nat,
    sharePrice: nat,
    gavPerShareNetManagementFee: nat,
    lastCalculationsUpdate: int,
    previousDailySharePrice: nat,
    currentDailySharePrice: nat)

  /** One fund valuation per batch, keyed by (fund, timestamp). */
  datatype FundCalculationsHistory = FundCalculationsHistory(
    gav: nat,
    validPrices: bool,
    feesInDenominationAsset: nat,
    feesInShares: nat,
    nav: nat,
    sharePrice: nat,
    gavPerShareNetManagementFee: nat,
    totalSupply: nat,
    source: string)

  /** An investor's position in one fund, keyed by (investor, fund). */
  datatype Investment = Investment(shares: nat, gav: nat, nav: nat, sharePrice: nat)

  /** Snapshot of a position at one batch, keyed by (investor, fund, timestamp). */
  datatype InvestmentValuationHistory = InvestmentValuationHistory(gav: nat, nav: nat, sharePrice: nat)

  /** An investor's totals across all funds at one batch, keyed by (investor, timestamp). */
  datatype InvestorValuationHistory = InvestorValuationHistory(gav: nat, nav: nat)

  /** The network-wide valuation of one batch, keyed by timestamp. */
  datatype MelonNetworkHistory = MelonNetworkHistory(gav: nat, validGav: bool)

  datatype Store = Store(
    state: ProcessState,
    registries: map<Address, seq<Address>>,   // registry id to its version ids
    versions: map<Address, seq<Address>>,     // version id to its fund ids
    assets: map<Address, Asset>,
    priceUpdates: map<int, AssetPriceUpdate>,
    priceHistory: map<(Address, int), AssetPriceHistory>,
    funds: map<Address, Fund>,
    fundHoldings: map<(Address, int, Address), FundHoldingsHistory>,
    networkAssets: map<(Address, int), NetworkAssetHistory>,
    calculations: map<(Address, int), FundCalculationsHistory>,
    investments: map<(Address, Address), Investment>,
    investmentHistory: map<(Address, Address, int), InvestmentValuationHistory>,
    investorHistory: map<(Address, int), InvestorValuationHistory>,
    networkHistory: map<int, MelonNetworkHistory>)

  /** Load-or-create of a network asset record: a fresh one has every total at zero. */
  function NetworkAssetOf(m: map<(Address, int), NetworkAssetHistory>, k: (Address, int)): NetworkAssetHistory
  {
    if k in m then m[k] else NetworkAssetHistory(0, 0, 0, 0)
  }

  /** Load-or-create of an investment: a fresh position holds no shares. */
  function InvestmentOf(m: map<(Address, Address), Investment>, k: (Address, Address)): Investment
  {
    if k in m then m[k] else Investment(0, 0, 0, 0)
  }

  /** Load-or-create of an investor's per-batch totals: a fresh one is zero. */
  function InvestorValuationOf(m: map<(Address, int), InvestorValuationHistory>, k: (Address, int)): InvestorValuationHistory
  {
    if k in m then m[k] else InvestorValuationHistory(0, 0)
  }
}
