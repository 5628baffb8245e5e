/** The portfolio panel: a list of holdings and four metrics recomputed
    from it against each market snapshot. */
module PortfolioTracker {
  import opened Collections
  import opened Market

  /** A stored holding (the image URL is left out). */
  datatype Holding = Holding(id: string, coin: string, symbol: string, amount: real,
                             purchasePrice: real, purchaseDate: string)

  /** Running value and investment of the metrics effect. */
  datatype Totals = Totals(value: real, investment: real)

  /** What one holding adds to the totals: its current value and its cost,
      or nothing at all when its coin is missing from the snapshot. */
  function Contribution(h: Holding, coins: seq<Coin>): Totals {
    match FindCoin(coins, h.coin)
    case None => Totals(0.0, 0.0)
    case Some(c) => Totals(c.currentPrice * h.amount, h.purchasePrice * h.amount)
  }

  /** The totals accumulated over `holdings` in order. */
  function Accumulate(holdings: seq<Holding>, coins: seq<Coin>): Totals
    decreases |holdings|
  {
    if holdings == [] then Totals(0.0, 0.0)
    else
      var t := Accumulate(holdings[..|holdings| - 1], coins);
      var c := Contribution(holdings[|holdings| - 1], coins);
      Totals(t.value + c.value, t.investment + c.investment)
  }

  /** The holdings whose coin is in the snapshot. */
  function Priced(holdings: seq<Holding>, coins: seq<Coin>): seq<Holding> {
    Filter(holdings, IsPriced(coins))
  }

  function IsPriced(coins: seq<Coin>): Holding -> bool {
    (h: Holding) => FindCoin(coins, h.coin).Some?
  }

  lemma {:induction false} AccumulateConcat(a: seq<Holding>, b: seq<Holding>, coins: seq<Coin>)
    ensures Accumulate(a + b, coins).value == Accumulate(a, coins).value + Accumulate(b, coins).value
    ensures Accumulate(a + b, coins).investment == Accumulate(a, coins).investment + Accumulate(b, coins).investment
    decreases |b|
  {
    if b == [] {
      assert a + b == a;
    } else {
      assert (a + b)[..|a + b| - 1] == a + b[..|b| - 1];
      AccumulateConcat(a, b[..|b| - 1], coins);
    }
  }

  /** Holdings whose coin is missing are skipped in both sums: the totals
      over all holdings equal the totals over the priced ones, which are
      the sums of `current_price * amount` and `purchasePrice * amount`. */
  lemma {:induction false} MissingCoinsAreSkipped(holdings: seq<Holding>, coins: seq<Coin>)
    ensures Accumulate(holdings, coins) == Accumulate(Priced(holdings, coins), coins)
    decreases |holdings|
  {
    if holdings != [] {
      var init, last := holdings[..|holdings| - 1], holdings[|holdings| - 1];
      assert holdings == init + [last];
      MissingCoinsAreSkipped(init, coins);
      SkipStep(init, last, coins);
    }
  }

  lemma SkipStep(init: seq<Holding>, last: Holding, coins: seq<Coin>)
    requires Accumulate(init, coins) == Accumulate(Priced(init, coins), coins)
    ensures Accumulate(init + [last], coins) == Accumulate(Priced(init + [last], coins), coins)
  {
    var holdings := init + [last];
    assert holdings[..|holdings| - 1] == init;
    FilterConcat(init, [last], IsPriced(coins));
    AccumulateSingle(last, coins);
    AccumulateConcat(Priced(init, coins), Priced([last], coins), coins);
  }

  lemma AccumulateSingle(h: Holding, coins: seq<Coin>)
    ensures Accumulate([h], coins) == Contribution(h, coins)
    ensures Priced([h], coins) == if FindCoin(coins, h.coin).Some? then [h] else []
  {
    assert [h][..0] == [];
  }

  /** With non-negative amounts and prices both totals are non-negative. */
  lemma {:induction false} TotalsNonNegative(holdings: seq<Holding>, coins: seq<Coin>)
    requires forall k :: 0 <= k < |holdings| ==> holdings[k].amount >= 0.0 && holdings[k].purchasePrice >= 0.0
    requires forall k :: 0 <= k < |coins| ==> coins[k].currentPrice >= 0.0
    ensures Accumulate(holdings, coins).value >= 0.0 && Accumulate(holdings, coins).investment >= 0.0
    decreases |holdings|
  {
    if holdings != [] {
      var init := holdings[..|holdings| - 1];
      assert forall k :: 0 <= k < |init| ==> init[k] == holdings[k];
      TotalsNonNegative(init, coins);
      var last := holdings[|holdings| - 1];
      match FindCoin(coins, last.coin) {
        case None =>
        case Some(c) =>
          FindCoinSpec(coins, last.coin);
          MulMono(last.amount, 0.0, c.currentPrice);
          MulMono(last.amount, 0.0, last.purchasePrice);
      }
    }
  }

  /** `profitPercentage`, guarded against a zero investment. */
  function ProfitPercentage(value: real, investment: real): (r: real)
    ensures investment <= 0.0 ==> r == 0.0
    ensures investment > 0.0 ==> r * investment == (value - investment) * 100.0
  {
    if investment > 0.0 then (value - investment) / investment * 100.0 else 0.0
  }

  /** The percentage has the sign of the profit. */
  lemma ProfitPercentageSign(value: real, investment: real)
    requires investment > 0.0
    ensures ProfitPercentage(value, investment) > 0.0 <==> value > investment
    ensures ProfitPercentage(value, investment) == 0.0 <==> value == investment
  {
    var r := ProfitPercentage(value, investment);
    if r > 0.0 { MulMono(investment, 0.0, r); }
    if r < 0.0 { MulMono(investment, r, 0.0); }
  }

  /** A bitcoin holding bought at 50000 and priced at 63852.41 shows a profit
      of 13852.41, that is 27.70482 percent. */
  lemma BitcoinProfitScenario(id: string, date: string)
    ensures var coins := [Coin("bitcoin", "btc", "Bitcoin", 63852.41, 0.0, 0.0, 0.0)];
      var t := Accumulate([Holding(id, "bitcoin", "btc", 1.0, 50000.0, date)], coins);
      t.value - t.investment == 13852.41 &&
      ProfitPercentage(t.value, t.investment) == 27.70482
  {
    var coins := [Coin("bitcoin", "btc", "Bitcoin", 63852.41, 0.0, 0.0, 0.0)];
    assert FindCoin(coins, "bitcoin") == Some(coins[0]);
    var hs := [Holding(id, "bitcoin", "btc", 1.0, 50000.0, date)];
    assert hs[..0] == [];
  }

  /** One slice of the pie chart. */
  datatype Slice = Slice(name: string, value: real)

  /** `pieChartData`: one slice per holding, in order, named by the
      upper-cased symbol, worth nothing when the coin is missing. */
  function PieChartData(holdings: seq<Holding>, coins: seq<Coin>): (r: seq<Slice>)
    ensures |r| == |holdings|
    ensures forall k :: 0 <= k < |r| ==>
              r[k].name == Text.ToUpper(holdings[k].symbol) &&
              r[k].value == Contribution(holdings[k], coins).value
    ensures forall k :: 0 <= k < |r| && FindCoin(coins, holdings[k].coin).None? ==> r[k].value == 0.0
  {
    seq(|holdings|, k requires 0 <= k < |holdings| =>
          Slice(Text.ToUpper(holdings[k].symbol), Contribution(holdings[k], coins).value))
  }

  function SliceSum(slices: seq<Slice>): real
    decreases |slices|
  {
    if slices == [] then 0.0 else SliceSum(slices[..|slices| - 1]) + slices[|slices| - 1].value
  }

  /** The slices add up to the portfolio value. */
  lemma {:induction false} PieAddsUpToValue(holdings: seq<Holding>, coins: seq<Coin>)
    ensures SliceSum(PieChartData(holdings, coins)) == Accumulate(holdings, coins).value
    decreases |holdings|
  {
    if holdings != [] {
      var init := holdings[..|holdings| - 1];
      PieAddsUpToValue(init, coins);
      assert PieChartData(holdings, coins)[..|holdings| - 1] == PieChartData(init, coins);
    }
  }

  class Portfolio {
    var holdings: seq<Holding>
    var portfolioValue: real
    var initialInvestment: real
    var totalProfit: real
    var profitPercentage: real
    /** The "Add New Holding" dialog's fields. */
    var selectedCoin: string
    var amount: string
    var purchasePrice: string
    var purchaseDate: string

    constructor ()
      ensures holdings == [] && portfolioValue == 0.0 && initialInvestment == 0.0
      ensures totalProfit == 0.0 && profitPercentage == 0.0
      ensures selectedCoin == "" && amount == "" && purchasePrice == "" && purchaseDate == ""
    {
      holdings := [];
      portfolioValue := 0.0;
      initialInvestment := 0.0;
      totalProfit := 0.0;
      profitPercentage := 0.0;
      selectedCoin := "";
      amount := "";
      purchasePrice := "";
      purchaseDate := "";
    }

    /** The metrics effect, run whenever the holdings or the snapshot change. */
    method UpdateMetrics(coins: seq<Coin>)
      modifies this`portfolioValue, this`initialInvestment, this`totalProfit, this`profitPercentage
      ensures |holdings| == 0 || |coins| == 0 ==>
                portfolioValue == 0.0 && initialInvestment == 0.0 && totalProfit == 0.0 && profitPercentage == 0.0
      ensures |holdings| > 0 && |coins| > 0 ==>
                portfolioValue == Accumulate(holdings, coins).value &&
                initialInvestment == Accumulate(holdings, coins).investment
      ensures totalProfit == portfolioValue - initialInvestment
      ensures profitPercentage == ProfitPercentage(portfolioValue, initialInvestment)
    {
      if |holdings| == 0 || |coins| == 0 {
        portfolioValue := 0.0;
        initialInvestment := 0.0;
        totalProfit := 0.0;
        profitPercentage := 0.0;
        return;
      }
      var totals := Sweep(holdings, coins);
      portfolioValue := totals.value;
      initialInvestment := totals.investment;
      totalProfit := totals.value - totals.investment;
      profitPercentage := if totals.investment > 0.0
                          then (totals.value - totals.investment) / totals.investment * 100.0
                          else 0.0;
    }

    /** `handleAddHolding`: `parsedAmount` and `parsedPrice` are the
        `Number.parseFloat` results of the two numeric fields; `id` comes
        from the clock. */
    method AddHolding(coins: seq<Coin>, parsedAmount: real, parsedPrice: real, id: string)
      returns (added: bool)
      modifies this`holdings, this`selectedCoin, this`amount, this`purchasePrice, this`purchaseDate
      ensures added <==> old(selectedCoin) != "" && old(amount) != "" && old(purchasePrice) != "" &&
                         old(purchaseDate) != "" && FindCoin(coins, old(selectedCoin)).Some?
      ensures added ==>
                holdings == old(holdings) + [Holding(id, old(selectedCoin), FindCoin(coins, old(selectedCoin)).value.symbol,
                                                     parsedAmount, parsedPrice, old(purchaseDate))] &&
                selectedCoin == "" && amount == "" && purchasePrice == "" && purchaseDate == ""
      ensures !added ==> holdings == old(holdings) && selectedCoin == old(selectedCoin) && amount == old(amount) &&
                         purchasePrice == old(purchasePrice) && purchaseDate == old(purchaseDate)
    {
      added := false;
      if selectedCoin == "" || amount == "" || purchasePrice == "" || purchaseDate == "" {
        return;
      }
      var coin := FindCoin(coins, selectedCoin);
      if coin.None? {
        return;
      }
      var newHolding := Holding(id, selectedCoin, coin.value.symbol, parsedAmount, parsedPrice, purchaseDate);
      holdings := holdings + [newHolding];
      selectedCoin := "";
      amount := "";
      purchasePrice := "";
      purchaseDate := "";
      added := true;
    }

    /** `handleDeleteHolding`: drop every holding with this id, keeping the
        order of the rest. */
    method DeleteHolding(id: string)
      modifies this`holdings
      ensures holdings == Filter(old(holdings), NotId(id))
      ensures forall k :: 0 <= k < |holdings| ==> holdings[k].id != id && holdings[k] in old(holdings)
      ensures forall k :: 0 <= k < |old(holdings)| && old(holdings)[k].id != id ==> old(holdings)[k] in holdings
    {
      FilterSpec(holdings, NotId(id));
      holdings := Filter(holdings, NotId(id));
    }
  }

  function NotId(id: string): Holding -> bool {
    (h: Holding) => h.id != id
  }

  /** The `forEach` of the metrics effect: one pass accumulating the value
      and the investment of the holdings whose coin is in the snapshot. */
  method Sweep(holdings: seq<Holding>, coins: seq<Coin>) returns (totals: Totals)
    ensures totals == Accumulate(holdings, coins)
  {
    var totalValue := 0.0;
    var totalInvestment := 0.0;
    for i := 0 to |holdings|
      invariant Totals(totalValue, totalInvestment) == Accumulate(holdings[..i], coins)
    {
      var holding := holdings[i];
      assert holdings[..i + 1][..i] == holdings[..i];
      var coin := FindCoin(coins, holding.coin);
      if coin.Some? {
        totalValue := totalValue + coin.value.currentPrice * holding.amount;
        totalInvestment := totalInvestment + holding.purchasePrice * holding.amount;
      }
    }
    assert holdings[..|holdings|] == holdings;
    totals := Totals(totalValue, totalInvestment);
  }
}
