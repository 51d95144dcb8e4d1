/**
 * Investor distribution: a valid fund's GAV and NAV are split over its historical
 * investors pro rata by shares, with floor division and a zero-supply guard, each
 * position and its history are written, and the amounts are added into each
 * investor's totals for the batch.
 */
module Investors {
  import opened Types
  import opened Entities

  /** An investor's part of a fund amount: `total * shares / supply` rounded down,
      and zero when the fund has no shares outstanding. */
  function Split(total: nat, shares: nat, supply: nat): (r: nat)
    ensures supply == 0 ==> r == 0
    ensures shares == 0 ==> r == 0
  {
    if supply == 0 then 0 else FloorDiv(total * shares, supply)
  }

  /** The split is the floor of the exact pro-rata amount. */
  lemma SplitFloor(total: nat, shares: nat, supply: nat)
    requires supply > 0
    ensures Split(total, shares, supply) * supply <= total * shares < (Split(total, shares, supply) + 1) * supply
  {
    FloorDivBounds(total * shares, supply);
  }

  /** An investor holding no more than the whole supply never gets more than the fund amount. */
  lemma SplitAtMostTotal(total: nat, shares: nat, supply: nat)
    requires shares <= supply
    ensures Split(total, shares, supply) <= total
  {
    if supply > 0 {
      var r := Split(total, shares, supply);
      SplitFloor(total, shares, supply);
      assert total * shares <= total * supply;
      CancelFactor(r, total, supply);
    }
  }

  lemma CancelFactor(a: nat, b: nat, c: nat)
    requires c > 0 && a * c <= b * c
    ensures a <= b
  {
  }

  lemma MulMonotone(a: nat, b: nat, c: nat)
    requires a <= b
    ensures c * a <= c * b
  {
  }

  function Sum(xs: seq<nat>): nat
    decreases |xs|
  {
    if |xs| == 0 then 0 else Sum(xs[..|xs| - 1]) + xs[|xs| - 1]
  }

  /** The investors' parts of `total`, one per entry of `shares`, added up. */
  function SumSplits(total: nat, shares: seq<nat>, supply: nat): nat
    decreases |shares|
  {
    if |shares| == 0 then 0
    else SumSplits(total, shares[..|shares| - 1], supply) + Split(total, shares[|shares| - 1], supply)
  }

  lemma {:induction false} SumSplitsScaled(total: nat, shares: seq<nat>, supply: nat)
    requires supply > 0
    ensures SumSplits(total, shares, supply) * supply <= total * Sum(shares)
    decreases |shares|
  {
    if |shares| > 0 {
      var p := shares[..|shares| - 1];
      var x := shares[|shares| - 1];
      SumSplitsScaled(total, p, supply);
      SplitFloor(total, x, supply);
      var a := SumSplits(total, p, supply);
      var b := Split(total, x, supply);
      Distribute(supply, a, b);
      Distribute(total, Sum(p), x);
    }
  }

  lemma Distribute(c: nat, a: nat, b: nat)
    ensures (a + b) * c == a * c + b * c
    ensures c * (a + b) == c * a + c * b
  {
  }

  /** Rounding down never hands out more than the fund has: when the investors' shares add up
      to at most the supply, their parts add up to at most the fund amount. */
  lemma SplitsWithinTotal(total: nat, shares: seq<nat>, supply: nat)
    requires Sum(shares) <= supply
    ensures SumSplits(total, shares, supply) <= total
  {
    if supply == 0 {
      SumSplitsZeroSupply(total, shares);
    } else {
      SumSplitsScaled(total, shares, supply);
      var r := SumSplits(total, shares, supply);
      MulMonotone(Sum(shares), supply, total);
      assert total * supply == supply * total;
      CancelFactor(r, total, supply);
    }
  }

  lemma {:induction false} SumSplitsZeroSupply(total: nat, shares: seq<nat>)
    ensures SumSplits(total, shares, 0) == 0
    decreases |shares|
  {
    if |shares| > 0 {
      SumSplitsZeroSupply(total, shares[..|shares| - 1]);
    }
  }

  /** The store maps the investor loop writes. */
  datatype InvestorPass = InvestorPass(
    investments: map<(Address, Address), Investment>,
    investmentHistory: map<(Address, Address, int), InvestmentValuationHistory>,
    investorHistory: map<(Address, int), InvestorValuationHistory>)

  /** One iteration of the investor loop of fund `fund` with valuation (`gav`, `nav`, `sharePrice`). */
  function InvestorStep(fund: Address, ts: int, gav: nat, nav: nat, sharePrice: nat, supply: nat,
                        acc: InvestorPass, investor: Address): InvestorPass
  {
    var key := (investor, fund);
    var position := InvestmentOf(acc.investments, key);
    var g := Split(gav, position.shares, supply);
    var n := Split(nav, position.shares, supply);
    var total := InvestorValuationOf(acc.investorHistory, (investor, ts));
    InvestorPass(
      acc.investments[key := position.(gav := g, nav := n, sharePrice := sharePrice)],
      acc.investmentHistory[(investor, fund, ts) := InvestmentValuationHistory(g, n, sharePrice)],
      acc.investorHistory[(investor, ts) := InvestorValuationHistory(total.gav + g, total.nav + n)])
  }

  /** The investor loop over the fund's historical investors. */
  function ProcessInvestors(fund: Address, ts: int, gav: nat, nav: nat, sharePrice: nat, supply: nat,
                            investors: seq<Address>, init: InvestorPass): InvestorPass
    decreases |investors|
  {
    if |investors| == 0 then init
    else InvestorStep(fund, ts, gav, nav, sharePrice, supply,
                      ProcessInvestors(fund, ts, gav, nav, sharePrice, supply, investors[..|investors| - 1], init),
                      investors[|investors| - 1])
  }

  /** The shares an investor held in `fund` before the loop; a position never loaded holds none. */
  function SharesBefore(init: InvestorPass, investor: Address, fund: Address): nat
  {
    InvestmentOf(init.investments, (investor, fund)).shares
  }

  /** The loop only revalues positions: every position keeps its shares. */
  lemma {:induction false} SharesKept(fund: Address, ts: int, gav: nat, nav: nat, sharePrice: nat, supply: nat,
                                      investors: seq<Address>, init: InvestorPass)
    ensures var r := ProcessInvestors(fund, ts, gav, nav, sharePrice, supply, investors, init);
            forall k :: InvestmentOf(r.investments, k).shares == InvestmentOf(init.investments, k).shares
    decreases |investors|
  {
    if |investors| > 0 {
      SharesKept(fund, ts, gav, nav, sharePrice, supply, investors[..|investors| - 1], init);
    }
  }

  /** The loop writes positions and position snapshots only for the listed investors: the position
      keys grow by exactly their (investor, fund) pairs, the snapshot keys by exactly their
      (investor, fund, ts) triples, and every other snapshot stays as it was. */
  lemma {:induction false} PositionsFrame(fund: Address, ts: int, gav: nat, nav: nat, sharePrice: nat, supply: nat,
                                          investors: seq<Address>, init: InvestorPass)
    ensures var r := ProcessInvestors(fund, ts, gav, nav, sharePrice, supply, investors, init);
            && r.investments.Keys == init.investments.Keys + (set x | x in investors :: (x, fund))
            && r.investmentHistory.Keys == init.investmentHistory.Keys + (set x | x in investors :: (x, fund, ts))
            && (forall k | k in init.investmentHistory && (k.0 !in investors || k.1 != fund || k.2 != ts) ::
                  r.investmentHistory[k] == init.investmentHistory[k])
    decreases |investors|
  {
    if |investors| > 0 {
      var p := investors[..|investors| - 1];
      var x := investors[|investors| - 1];
      PositionsFrame(fund, ts, gav, nav, sharePrice, supply, p, init);
      var prev := ProcessInvestors(fund, ts, gav, nav, sharePrice, supply, p, init);
      var r := InvestorStep(fund, ts, gav, nav, sharePrice, supply, prev, x);
      assert investors == p + [x];
      assert (set y | y in investors :: (y, fund)) == (set y | y in p :: (y, fund)) + {(x, fund)};
      SnapshotStep(fund, ts, investors, init.investmentHistory, prev.investmentHistory, r.investmentHistory);
    } else {
      assert (set y | y in investors :: (y, fund)) == {};
      assert (set y | y in investors :: (y, fund, ts)) == {};
    }
  }

  lemma SnapshotStep(fund: Address, ts: int, investors: seq<Address>,
                     init: map<(Address, Address, int), InvestmentValuationHistory>,
                     prev: map<(Address, Address, int), InvestmentValuationHistory>,
                     r: map<(Address, Address, int), InvestmentValuationHistory>)
    requires |investors| > 0
    requires var p := investors[..|investors| - 1];
             && prev.Keys == init.Keys + (set x | x in p :: (x, fund, ts))
             && forall k | k in init && (k.0 !in p || k.1 != fund || k.2 != ts) :: prev[k] == init[k]
    requires var x := investors[|investors| - 1];
             (x, fund, ts) in r && r == prev[(x, fund, ts) := r[(x, fund, ts)]]
    ensures r.Keys == init.Keys + (set x | x in investors :: (x, fund, ts))
    ensures forall k | k in init && (k.0 !in investors || k.1 != fund || k.2 != ts) :: r[k] == init[k]
  {
    var p := investors[..|investors| - 1];
    var x := investors[|investors| - 1];
    assert investors == p + [x];
    assert (set y | y in investors :: (y, fund, ts)) == (set y | y in p :: (y, fund, ts)) + {(x, fund, ts)};
  }

  /** Every investor of the list ends with its position and its history entry revalued at its
      pro-rata part; positions of other investors or other funds are untouched, and no position or
      snapshot is created for anyone else. */
  lemma {:induction false} PositionsRevalued(fund: Address, ts: int, gav: nat, nav: nat, sharePrice: nat, supply: nat,
                                             investors: seq<Address>, init: InvestorPass)
    ensures var r := ProcessInvestors(fund, ts, gav, nav, sharePrice, supply, investors, init);
            && (forall l | 0 <= l < |investors| ::
                  var shares := SharesBefore(init, investors[l], fund);
                  && (investors[l], fund) in r.investments
                  && r.investments[(investors[l], fund)]
                     == Investment(shares, Split(gav, shares, supply), Split(nav, shares, supply), sharePrice)
                  && (investors[l], fund, ts) in r.investmentHistory
                  && r.investmentHistory[(investors[l], fund, ts)]
                     == InvestmentValuationHistory(Split(gav, shares, supply), Split(nav, shares, supply), sharePrice))
            && (forall k | k in init.investments && (k.1 != fund || k.0 !in investors) :: k in r.investments && r.investments[k] == init.investments[k])
            && r.investments.Keys == init.investments.Keys + (set x | x in investors :: (x, fund))
            && r.investmentHistory.Keys == init.investmentHistory.Keys + (set x | x in investors :: (x, fund, ts))
            && (forall k | k in init.investmentHistory && (k.0 !in investors || k.1 != fund || k.2 != ts) ::
                  r.investmentHistory[k] == init.investmentHistory[k])
    decreases |investors|
  {
    PositionsFrame(fund, ts, gav, nav, sharePrice, supply, investors, init);
    if |investors| > 0 {
      var p := investors[..|investors| - 1];
      PositionsRevalued(fund, ts, gav, nav, sharePrice, supply, p, init);
      SharesKept(fund, ts, gav, nav, sharePrice, supply, p, init);
      var prev := ProcessInvestors(fund, ts, gav, nav, sharePrice, supply, p, init);
      PositionsStep(fund, ts, gav, nav, sharePrice, supply, investors, init, prev);
    }
  }

  lemma PositionsStep(fund: Address, ts: int, gav: nat, nav: nat, sharePrice: nat, supply: nat,
                      investors: seq<Address>, init: InvestorPass, prev: InvestorPass)
    requires |investors| > 0
    requires forall k :: InvestmentOf(prev.investments, k).shares == InvestmentOf(init.investments, k).shares
    requires var p := investors[..|investors| - 1];
             && (forall l | 0 <= l < |p| ::
                  var shares := SharesBefore(init, p[l], fund);
                  && (p[l], fund) in prev.investments
                  && prev.investments[(p[l], fund)]
                     == Investment(shares, Split(gav, shares, supply), Split(nav, shares, supply), sharePrice)
                  && (p[l], fund, ts) in prev.investmentHistory
                  && prev.investmentHistory[(p[l], fund, ts)]
                     == InvestmentValuationHistory(Split(gav, shares, supply), Split(nav, shares, supply), sharePrice))
             && (forall k | k in init.investments && (k.1 != fund || k.0 !in p) :: k in prev.investments && prev.investments[k] == init.investments[k])
    ensures var r := InvestorStep(fund, ts, gav, nav, sharePrice, supply, prev, investors[|investors| - 1]);
            && (forall l | 0 <= l < |investors| ::
                  var shares := SharesBefore(init, investors[l], fund);
                  && (investors[l], fund) in r.investments
                  && r.investments[(investors[l], fund)]
                     == Investment(shares, Split(gav, shares, supply), Split(nav, shares, supply), sharePrice)
                  && (investors[l], fund, ts) in r.investmentHistory
                  && r.investmentHistory[(investors[l], fund, ts)]
                     == InvestmentValuationHistory(Split(gav, shares, supply), Split(nav, shares, supply), sharePrice))
            && (forall k | k in init.investments && (k.1 != fund || k.0 !in investors) :: k in r.investments && r.investments[k] == init.investments[k])
  {
    var p := investors[..|investors| - 1];
    var x := investors[|investors| - 1];
    assert InvestmentOf(prev.investments, (x, fund)).shares == SharesBefore(init, x, fund);
    forall l | 0 <= l < |investors| - 1
      ensures investors[l] == p[l]
    {
    }
    forall k | k in init.investments && (k.1 != fund || k.0 !in investors)
      ensures k.1 != fund || k.0 !in p
    {
      if k.0 in p {
        var l :| 0 <= l < |p| && p[l] == k.0;
        assert investors[l] == k.0;
      }
    }
  }

  lemma TotalsStep(before: InvestorValuationHistory, prevTotal: InvestorValuationHistory,
                   times: nat, g: nat, n: nat, hit: bool, next: InvestorValuationHistory)
    requires prevTotal == InvestorValuationHistory(before.gav + times * g, before.nav + times * n)
    requires next == if hit then InvestorValuationHistory(prevTotal.gav + g, prevTotal.nav + n) else prevTotal
    ensures var t := if hit then times + 1 else times;
            next == InvestorValuationHistory(before.gav + t * g, before.nav + t * n)
  {
    if hit {
      assert (times + 1) * g == times * g + g;
      assert (times + 1) * n == times * n + n;
    }
  }

  lemma TotalsAdditiveStep(fund: Address, ts: int, gav: nat, nav: nat, sharePrice: nat, supply: nat,
                           init: InvestorPass, prev: InvestorPass, x: Address, investor: Address, times: nat, t: nat)
    requires t == if x == investor then times + 1 else times
    requires InvestmentOf(prev.investments, (investor, fund)).shares == SharesBefore(init, investor, fund)
    requires var shares := SharesBefore(init, investor, fund);
             var before := InvestorValuationOf(init.investorHistory, (investor, ts));
             InvestorValuationOf(prev.investorHistory, (investor, ts))
               == InvestorValuationHistory(before.gav + times * Split(gav, shares, supply),
                                           before.nav + times * Split(nav, shares, supply))
    ensures var r := InvestorStep(fund, ts, gav, nav, sharePrice, supply, prev, x);
            var shares := SharesBefore(init, investor, fund);
            var before := InvestorValuationOf(init.investorHistory, (investor, ts));
            InvestorValuationOf(r.investorHistory, (investor, ts))
              == InvestorValuationHistory(before.gav + t * Split(gav, shares, supply),
                                          before.nav + t * Split(nav, shares, supply))
  {
    var shares := SharesBefore(init, investor, fund);
    var before := InvestorValuationOf(init.investorHistory, (investor, ts));
    var g := Split(gav, shares, supply);
    var n := Split(nav, shares, supply);
    var prevTotal := InvestorValuationOf(prev.investorHistory, (investor, ts));
    var next := InvestorValuationOf(InvestorStep(fund, ts, gav, nav, sharePrice, supply, prev, x).investorHistory, (investor, ts));
    if x == investor {
      assert next == InvestorValuationHistory(prevTotal.gav + g, prevTotal.nav + n);
    } else {
      assert (x, ts) != (investor, ts);
      assert next == prevTotal;
    }
    TotalsStep(before, prevTotal, times, g, n, x == investor, next);
  }

  /** How many times `x` appears in `xs`. */
  function Occurrences(xs: seq<Address>, x: Address): (n: nat)
    ensures n == multiset(xs)[x]
    decreases |xs|
  {
    if |xs| == 0 then 0
    else
      assert xs == xs[..|xs| - 1] + [xs[|xs| - 1]];
      Occurrences(xs[..|xs| - 1], x) + if xs[|xs| - 1] == x then 1 else 0
  }

  /** Per-investor totals are purely additive: each investor's total for the batch grows by its
      part of the fund once per time it appears in the list, and nothing else changes. */
  lemma {:induction false} InvestorTotalsAdditive(fund: Address, ts: int, gav: nat, nav: nat, sharePrice: nat, supply: nat,
                                                  investors: seq<Address>, init: InvestorPass, investor: Address)
    ensures var r := ProcessInvestors(fund, ts, gav, nav, sharePrice, supply, investors, init);
            var times := Occurrences(investors, investor);
            var shares := SharesBefore(init, investor, fund);
            var before := InvestorValuationOf(init.investorHistory, (investor, ts));
            InvestorValuationOf(r.investorHistory, (investor, ts))
              == InvestorValuationHistory(before.gav + times * Split(gav, shares, supply),
                                          before.nav + times * Split(nav, shares, supply))
    decreases |investors|
  {
    if |investors| > 0 {
      var p := investors[..|investors| - 1];
      var x := investors[|investors| - 1];
      InvestorTotalsAdditive(fund, ts, gav, nav, sharePrice, supply, p, init, investor);
      SharesKept(fund, ts, gav, nav, sharePrice, supply, p, init);
      var prev := ProcessInvestors(fund, ts, gav, nav, sharePrice, supply, p, init);
      TotalsAdditiveStep(fund, ts, gav, nav, sharePrice, supply, init, prev, x, investor,
                         Occurrences(p, investor), Occurrences(investors, investor));
    }
  }

  /** Totals of other timestamps are untouched, and a totals record exists afterwards for every
      investor of the list. */
  lemma {:induction false} InvestorTotalsFrame(fund: Address, ts: int, gav: nat, nav: nat, sharePrice: nat, supply: nat,
                                               investors: seq<Address>, init: InvestorPass)
    ensures var r := ProcessInvestors(fund, ts, gav, nav, sharePrice, supply, investors, init);
            && r.investorHistory.Keys == init.investorHistory.Keys + (set x | x in investors :: (x, ts))
            && (forall k | k in init.investorHistory && k.1 != ts :: r.investorHistory[k] == init.investorHistory[k])
    decreases |investors|
  {
    if |investors| > 0 {
      var p := investors[..|investors| - 1];
      InvestorTotalsFrame(fund, ts, gav, nav, sharePrice, supply, p, init);
      assert investors == p + [investors[|investors| - 1]];
      assert (set x | x in investors :: (x, ts)) == (set x | x in p :: (x, ts)) + {(investors[|investors| - 1], ts)};
    } else {
      assert (set x | x in investors :: (x, ts)) == {};
    }
  }
}
