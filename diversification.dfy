/** The diversification panel: holdings are grouped into categories by a
    first-match table lookup, and the groups are scored for risk,
    correlation and concentration. */
module Diversification {
  import opened Collections
  import opened Market
  import opened PortfolioTracker

  datatype Category = Layer1 | Layer2 | DeFi | Stablecoins | ExchangeTokens | MemeCoins
                    | Privacy | MetaverseGaming | StorageComputing | Other

  /** The key order of `CATEGORIES`. */
  const TableOrder: seq<Category> :=
    [Layer1, Layer2, DeFi, Stablecoins, ExchangeTokens, MemeCoins, Privacy, MetaverseGaming, StorageComputing, Other]

  /** The coin lists of `CATEGORIES`; only membership (`includes`) is
      ever asked of them. */
  function Members(c: Category): set<string> {
    match c
    case Layer1 => {"bitcoin", "ethereum", "solana", "cardano", "avalanche", "near", "polkadot"}
    case Layer2 => {"polygon", "arbitrum", "optimism"}
    case DeFi => {"uniswap", "aave", "maker", "chainlink", "the-graph"}
    case Stablecoins => {"tether", "usd-coin", "binance-usd", "dai"}
    case ExchangeTokens => {"binancecoin", "ftx-token", "kucoin-shares"}
    case MemeCoins => {"dogecoin", "shiba-inu", "pepe", "floki"}
    case Privacy => {"monero", "zcash", "dash"}
    case MetaverseGaming => {"decentraland", "the-sandbox", "apecoin", "axie-infinity"}
    case StorageComputing => {"filecoin", "arweave", "theta-network"}
    case Other => {}
  }

  /** `CATEGORY_RISK[category]`, `None` standing for `undefined`. */
  function CategoryRisk(c: Category): Option<int> {
    match c
    case Layer1 => Some(6)
    case Layer2 => Some(7)
    case DeFi => Some(8)
    case Stablecoins => Some(3)
    case ExchangeTokens => Some(6)
    case MemeCoins => Some(10)
    case Privacy => Some(7)
    case MetaverseGaming => Some(9)
    case StorageComputing => Some(7)
    case Other => Some(8)
  }

  /** `CATEGORY_RISK[category] || 5`. */
  function RiskOf(c: Category): int {
    var r := CategoryRisk(c);
    if r.Some? && r.value != 0 then r.value else 5
  }

  /** Every category has a non-zero risk entry between 3 and 10, so the
      default 5 is never used. */
  lemma RiskDefaultUnused(c: Category)
    ensures CategoryRisk(c).Some? && CategoryRisk(c).value != 0 && RiskOf(c) == CategoryRisk(c).value
    ensures 3 <= RiskOf(c) <= 10
  {
  }

  /** `CORRELATION_MATRIX[c1]?.[c2]`, `None` standing for `undefined`: only
      the Layer 1 and Layer 2 rows exist. */
  function MatrixEntry(c1: Category, c2: Category): Option<real> {
    match c1
    case Layer1 =>
      Some(match c2
           case Layer1 => 1.0 case Layer2 => 0.8 case DeFi => 0.7 case Stablecoins => 0.3
           case ExchangeTokens => 0.6 case MemeCoins => 0.5 case Privacy => 0.4
           case MetaverseGaming => 0.6 case StorageComputing => 0.5 case Other => 0.5)
    case Layer2 =>
      Some(match c2
           case Layer1 => 0.8 case Layer2 => 1.0 case DeFi => 0.7 case Stablecoins => 0.3
           case ExchangeTokens => 0.5 case MemeCoins => 0.4 case Privacy => 0.3
           case MetaverseGaming => 0.5 case StorageComputing => 0.4 case Other => 0.4)
    case _ => None
  }

  /** `CORRELATION_MATRIX[c1]?.[c2] || CORRELATION_MATRIX[c2]?.[c1] || 0.5`. */
  function Correlation(c1: Category, c2: Category): (r: real)
    ensures 0.0 < r <= 1.0
  {
    var a := MatrixEntry(c1, c2);
    if a.Some? && a.value != 0.0 then a.value
    else
      var b := MatrixEntry(c2, c1);
      if b.Some? && b.value != 0.0 then b.value else 0.5
  }

  /** The lookup is symmetric, and two distinct categories are correlated
      at most 0.8. */
  lemma CorrelationSymmetric(c1: Category, c2: Category)
    ensures Correlation(c1, c2) == Correlation(c2, c1)
    ensures c1 != c2 ==> Correlation(c1, c2) <= 0.8
  {
  }

  // ---------------------------------------------------------------------
  // getCoinCategory
  // ---------------------------------------------------------------------

  /** The first category of `order` whose list in `table` holds the coin,
      else Other. The lookup is stated for any table so that its facts do
      not depend on the coin lists' contents. */
  function FirstCategory(order: seq<Category>, table: Category -> set<string>, coinId: string): Category
    decreases |order|
  {
    if order == [] then Other
    else if coinId in table(order[0]) then order[0]
    else FirstCategory(order[1..], table, coinId)
  }

  function CategoryOf(coinId: string): Category {
    FirstCategory(TableOrder, Members, coinId)
  }

  lemma {:induction false} FirstCategoryFound(order: seq<Category>, table: Category -> set<string>, coinId: string)
    ensures FirstCategory(order, table, coinId) == Other ||
            (coinId in table(FirstCategory(order, table, coinId)) && FirstCategory(order, table, coinId) in order)
    decreases |order|
  {
    if order != [] && coinId !in table(order[0]) {
      FirstCategoryFound(order[1..], table, coinId);
    }
  }

  lemma {:induction false} FirstCategoryUnlisted(order: seq<Category>, table: Category -> set<string>, coinId: string)
    requires forall k :: 0 <= k < |order| ==> coinId !in table(order[k])
    ensures FirstCategory(order, table, coinId) == Other
    decreases |order|
  {
    if order != [] {
      assert forall k :: 0 <= k < |order[1..]| ==> order[1..][k] == order[k + 1];
      FirstCategoryUnlisted(order[1..], table, coinId);
    }
  }

  lemma {:induction false} FirstCategoryEarliest(order: seq<Category>, table: Category -> set<string>,
                                                 coinId: string, k: nat) returns (m: nat)
    requires k < |order| && coinId in table(order[k])
    ensures m <= k && order[m] == FirstCategory(order, table, coinId)
    decreases k
  {
    if coinId in table(order[0]) {
      m := 0;
    } else {
      assert order[1..][k - 1] == order[k];
      var m' := FirstCategoryEarliest(order[1..], table, coinId, k - 1);
      m := m' + 1;
      assert order[1..][m'] == order[m];
    }
  }

  /** The first match in `order` is a category holding the coin, and no
      earlier one holds it; with no match the answer is Other. */
  lemma FirstCategorySpec(order: seq<Category>, table: Category -> set<string>, coinId: string)
    ensures FirstCategory(order, table, coinId) == Other ||
            (coinId in table(FirstCategory(order, table, coinId)) && FirstCategory(order, table, coinId) in order)
    ensures (forall k :: 0 <= k < |order| ==> coinId !in table(order[k])) ==>
              FirstCategory(order, table, coinId) == Other
    ensures forall k :: 0 <= k < |order| && coinId in table(order[k]) ==>
              exists m :: 0 <= m <= k && order[m] == FirstCategory(order, table, coinId)
  {
    FirstCategoryFound(order, table, coinId);
    if forall k :: 0 <= k < |order| ==> coinId !in table(order[k]) {
      FirstCategoryUnlisted(order, table, coinId);
    }
    forall k | 0 <= k < |order| && coinId in table(order[k])
      ensures exists m :: 0 <= m <= k && order[m] == FirstCategory(order, table, coinId)
    {
      var m := FirstCategoryEarliest(order, table, coinId, k);
      assert order[m] == FirstCategory(order, table, coinId);
    }
  }

  /** A coin listed in no category is Other. */
  lemma CategoryOfUnlisted(coinId: string)
    requires forall c: Category :: coinId !in Members(c)
    ensures CategoryOf(coinId) == Other
  {
    FirstCategoryUnlisted(TableOrder, Members, coinId);
  }

  /** `getCoinCategory`: scan the table in order, returning early. */
  method GetCoinCategory(coinId: string) returns (category: Category)
    ensures category == CategoryOf(coinId)
  {
    for i := 0 to |TableOrder|
      invariant FirstCategory(TableOrder[i..], Members, coinId) == CategoryOf(coinId)
    {
      assert TableOrder[i..][1..] == TableOrder[i + 1..];
      if coinId in Members(TableOrder[i]) {
        return TableOrder[i];
      }
    }
    return Other;
  }

  // ---------------------------------------------------------------------
  // Value per category
  // ---------------------------------------------------------------------

  /** One entry of `categoriesMap`. */
  datatype Bucket = Bucket(value: real, coins: seq<string>)

  /** `categoriesMap` with its key insertion order, and the running total. */
  datatype Tally = Tally(order: seq<Category>, buckets: map<Category, Bucket>, total: real)

  /** Adding the value `v` of coin `coinId` to category `cat`: the bucket
      is created on first use, the value goes to the bucket and to the
      total, and the coin joins the bucket's list unless already there. */
  function AddValue(t: Tally, cat: Category, v: real, coinId: string): Tally {
    var b := if cat in t.buckets then t.buckets[cat] else Bucket(0.0, []);
    var order := if cat in t.buckets then t.order else t.order + [cat];
    var coinList := if coinId in b.coins then b.coins else b.coins + [coinId];
    Tally(order, t.buckets[cat := Bucket(b.value + v, coinList)], t.total + v)
  }

  /** One step of the aggregation `forEach`: a holding whose coin is missing
      is skipped, any other adds `current_price * amount` to its category. */
  function Absorb(t: Tally, h: Holding, coins: seq<Coin>, categoryOf: string -> Category): Tally {
    match FindCoin(coins, h.coin)
    case None => t
    case Some(_) => AddValue(t, categoryOf(h.coin), Contribution(h, coins).value, h.coin)
  }

  /** The aggregation over `holdings` in order; `categoryOf` is
      `getCoinCategory`, a parameter here so that the facts about the
      aggregation hold for any categorisation. */
  function TallyOf(holdings: seq<Holding>, coins: seq<Coin>, categoryOf: string -> Category): Tally
    decreases |holdings|
  {
    if holdings == [] then Tally([], map[], 0.0)
    else Absorb(TallyOf(holdings[..|holdings| - 1], coins, categoryOf), holdings[|holdings| - 1], coins, categoryOf)
  }

  /** The sum of the bucket values, in key order. */
  function BucketSum(order: seq<Category>, buckets: map<Category, Bucket>): real
    requires forall k :: 0 <= k < |order| ==> order[k] in buckets
    decreases |order|
  {
    if order == [] then 0.0
    else BucketSum(order[..|order| - 1], buckets) + buckets[order[|order| - 1]].value
  }

  /** The invariant of the aggregation: keys listed once each in insertion
      order, duplicate-free coin lists, and category values summing to the
      total. */
  ghost predicate WellFormed(t: Tally) {
    NoDup(t.order) &&
    (forall c :: c in t.buckets <==> c in t.order) &&
    (forall c :: c in t.buckets ==> NoDup(t.buckets[c].coins)) &&
    t.total == BucketSum(t.order, t.buckets)
  }

  lemma {:induction false} BucketSumFrame(order: seq<Category>, b1: map<Category, Bucket>, b2: map<Category, Bucket>)
    requires forall k :: 0 <= k < |order| ==> order[k] in b1 && order[k] in b2 && b1[order[k]] == b2[order[k]]
    ensures BucketSum(order, b1) == BucketSum(order, b2)
    decreases |order|
  {
    if order != [] {
      BucketSumFrame(order[..|order| - 1], b1, b2);
    }
  }

  lemma {:induction false} BucketSumUpdate(order: seq<Category>, buckets: map<Category, Bucket>, cat: Category, b: Bucket)
    requires NoDup(order) && cat in order
    requires forall k :: 0 <= k < |order| ==> order[k] in buckets
    ensures BucketSum(order, buckets[cat := b]) == BucketSum(order, buckets) - buckets[cat].value + b.value
    decreases |order|
  {
    var init := order[..|order| - 1];
    var last := order[|order| - 1];
    assert forall k :: 0 <= k < |init| ==> init[k] == order[k];
    if last == cat {
      BucketSumFrame(init, buckets, buckets[cat := b]);
    } else {
      assert cat in init by {
        var k :| 0 <= k < |order| && order[k] == cat;
        assert k < |order| - 1;
        assert init[k] == cat;
      }
      BucketSumUpdate(init, buckets, cat, b);
    }
  }

  lemma AddValueKeys(t: Tally, cat: Category, v: real, coinId: string)
    requires NoDup(t.order) && forall c :: c in t.buckets <==> c in t.order
    ensures var r := AddValue(t, cat, v, coinId);
            NoDup(r.order) && forall c :: c in r.buckets <==> c in r.order
  {
    if cat !in t.buckets {
      NoDupAppend(t.order, cat);
    }
  }

  lemma AddValueCoinLists(t: Tally, cat: Category, v: real, coinId: string)
    requires forall c :: c in t.buckets ==> NoDup(t.buckets[c].coins)
    ensures var r := AddValue(t, cat, v, coinId);
            forall c :: c in r.buckets ==> NoDup(r.buckets[c].coins)
  {
    var b := if cat in t.buckets then t.buckets[cat] else Bucket(0.0, []);
    if coinId !in b.coins {
      NoDupAppend(b.coins, coinId);
    }
  }

  lemma AddValueTotal(t: Tally, cat: Category, v: real, coinId: string)
    requires NoDup(t.order) && forall c :: c in t.buckets <==> c in t.order
    requires t.total == BucketSum(t.order, t.buckets)
    ensures var r := AddValue(t, cat, v, coinId);
            forall k :: 0 <= k < |r.order| ==> r.order[k] in r.buckets
    ensures var r := AddValue(t, cat, v, coinId);
            r.total == BucketSum(r.order, r.buckets)
  {
    if cat in t.buckets {
      AddValueExisting(t, cat, v, coinId);
    } else {
      AddValueFresh(t, cat, v, coinId);
    }
  }

  lemma AddValueExisting(t: Tally, cat: Category, v: real, coinId: string)
    requires NoDup(t.order) && forall c :: c in t.buckets <==> c in t.order
    requires t.total == BucketSum(t.order, t.buckets) && cat in t.buckets
    ensures var r := AddValue(t, cat, v, coinId);
            (forall k :: 0 <= k < |r.order| ==> r.order[k] in r.buckets) &&
            r.total == BucketSum(r.order, r.buckets)
  {
    var r := AddValue(t, cat, v, coinId);
    assert r.order == t.order;
    BucketSumUpdate(t.order, t.buckets, cat, r.buckets[cat]);
  }

  lemma AddValueFresh(t: Tally, cat: Category, v: real, coinId: string)
    requires forall c :: c in t.buckets <==> c in t.order
    requires t.total == BucketSum(t.order, t.buckets) && cat !in t.buckets
    ensures var r := AddValue(t, cat, v, coinId);
            (forall k :: 0 <= k < |r.order| ==> r.order[k] in r.buckets) &&
            r.total == BucketSum(r.order, r.buckets)
  {
    var r := AddValue(t, cat, v, coinId);
    assert r.order == t.order + [cat];
    assert r.order[..|r.order| - 1] == t.order;
    BucketSumFrame(t.order, t.buckets, r.buckets);
  }

  lemma AddValueWellFormed(t: Tally, cat: Category, v: real, coinId: string)
    requires WellFormed(t)
    ensures WellFormed(AddValue(t, cat, v, coinId))
  {
    AddValueKeys(t, cat, v, coinId);
    AddValueCoinLists(t, cat, v, coinId);
    AddValueTotal(t, cat, v, coinId);
  }

  /** A bucket's coins after the step: those it had, plus `coinId` in the
      bucket of `cat`. */
  lemma AddValueCoins(t: Tally, cat: Category, v: real, coinId: string)
    ensures var r := AddValue(t, cat, v, coinId);
      forall c, x :: c in r.buckets && x in r.buckets[c].coins ==>
        (c in t.buckets && x in t.buckets[c].coins) || (c == cat && x == coinId)
  {
  }

  /** Unfolding one step of the aggregation. */
  lemma AbsorbStep(t: Tally, h: Holding, coins: seq<Coin>, categoryOf: string -> Category)
    requires FindCoin(coins, h.coin).Some?
    ensures Absorb(t, h, coins, categoryOf) == AddValue(t, categoryOf(h.coin), Contribution(h, coins).value, h.coin)
  {
  }

  lemma AbsorbSkip(t: Tally, h: Holding, coins: seq<Coin>, categoryOf: string -> Category)
    requires FindCoin(coins, h.coin) == None
    ensures Absorb(t, h, coins, categoryOf) == t
  {
  }

  lemma AbsorbWellFormed(t: Tally, h: Holding, coins: seq<Coin>, categoryOf: string -> Category)
    requires WellFormed(t)
    ensures WellFormed(Absorb(t, h, coins, categoryOf))
  {
    match FindCoin(coins, h.coin)
    case None =>
      AbsorbSkip(t, h, coins, categoryOf);
    case Some(c) =>
      AbsorbStep(t, h, coins, categoryOf);
      AddValueWellFormed(t, categoryOf(h.coin), Contribution(h, coins).value, h.coin);
  }

  lemma {:induction false} TallyWellFormed(holdings: seq<Holding>, coins: seq<Coin>, categoryOf: string -> Category)
    ensures WellFormed(TallyOf(holdings, coins, categoryOf))
    decreases |holdings|
  {
    if holdings != [] {
      TallyWellFormed(holdings[..|holdings| - 1], coins, categoryOf);
      AbsorbWellFormed(TallyOf(holdings[..|holdings| - 1], coins, categoryOf), holdings[|holdings| - 1], coins, categoryOf);
    }
  }

  /** The total is the portfolio value the tracker computes: holdings whose
      coin is missing are skipped here as well. */
  lemma {:induction false} TallyTotalIsPortfolioValue(holdings: seq<Holding>, coins: seq<Coin>, categoryOf: string -> Category)
    ensures TallyOf(holdings, coins, categoryOf).total == Accumulate(holdings, coins).value
    decreases |holdings|
  {
    if holdings != [] {
      TallyTotalIsPortfolioValue(holdings[..|holdings| - 1], coins, categoryOf);
    }
  }

  /** Every bucket holds coins of its own category that appear among the
      holdings and are priced in the snapshot. */
  lemma {:induction false} BucketsHoldTheirCoins(holdings: seq<Holding>, coins: seq<Coin>, categoryOf: string -> Category)
    ensures forall c, x :: c in TallyOf(holdings, coins, categoryOf).buckets && x in TallyOf(holdings, coins, categoryOf).buckets[c].coins ==>
              categoryOf(x) == c
    ensures forall c, x :: c in TallyOf(holdings, coins, categoryOf).buckets && x in TallyOf(holdings, coins, categoryOf).buckets[c].coins ==>
              FindCoin(coins, x).Some?
    ensures forall c, x :: c in TallyOf(holdings, coins, categoryOf).buckets && x in TallyOf(holdings, coins, categoryOf).buckets[c].coins ==>
              exists k :: 0 <= k < |holdings| && holdings[k].coin == x
    decreases |holdings|
  {
    if holdings != [] {
      var init := holdings[..|holdings| - 1];
      var h := holdings[|holdings| - 1];
      var before := TallyOf(init, coins, categoryOf);
      BucketsHoldTheirCoins(init, coins, categoryOf);
      assert forall k :: 0 <= k < |init| ==> init[k] == holdings[k];
      var after := TallyOf(holdings, coins, categoryOf);
      if FindCoin(coins, h.coin).None? {
        AbsorbSkip(before, h, coins, categoryOf);
      } else {
        AbsorbStep(before, h, coins, categoryOf);
        AddValueCoins(before, categoryOf(h.coin), Contribution(h, coins).value, h.coin);
      }
      forall c, x | c in after.buckets && x in after.buckets[c].coins
        ensures categoryOf(x) == c && FindCoin(coins, x).Some? && exists k :: 0 <= k < |holdings| && holdings[k].coin == x
      {
        if c in before.buckets && x in before.buckets[c].coins {
          assert categoryOf(x) == c;
          assert FindCoin(coins, x).Some?;
          assert exists k :: 0 <= k < |init| && init[k].coin == x;
          var k :| 0 <= k < |init| && init[k].coin == x;
          assert holdings[k].coin == x;
        } else {
          assert holdings[|holdings| - 1].coin == x;
        }
      }
    }
  }

  /** With non-negative prices and amounts every bucket value is
      non-negative. */
  lemma {:induction false} TallyNonNegative(holdings: seq<Holding>, coins: seq<Coin>, categoryOf: string -> Category)
    requires forall k :: 0 <= k < |holdings| ==> holdings[k].amount >= 0.0
    requires forall k :: 0 <= k < |coins| ==> coins[k].currentPrice >= 0.0
    ensures forall c :: c in TallyOf(holdings, coins, categoryOf).buckets ==> TallyOf(holdings, coins, categoryOf).buckets[c].value >= 0.0
    ensures TallyOf(holdings, coins, categoryOf).total >= 0.0
    decreases |holdings|
  {
    if holdings != [] {
      var init := holdings[..|holdings| - 1];
      assert forall k :: 0 <= k < |init| ==> init[k] == holdings[k];
      TallyNonNegative(init, coins, categoryOf);
      var h := holdings[|holdings| - 1];
      match FindCoin(coins, h.coin) {
        case None =>
        case Some(c) =>
          FindCoinSpec(coins, h.coin);
          MulMono(h.amount, 0.0, c.currentPrice);
          assert Contribution(h, coins).value >= 0.0;
          AbsorbStep(TallyOf(init, coins, categoryOf), h, coins, categoryOf);
      }
    }
  }

  /** The `forEach` that fills `categoriesMap`. */
  method TallyHoldings(holdings: seq<Holding>, coins: seq<Coin>) returns (t: Tally)
    ensures t == TallyOf(holdings, coins, CategoryOf)
  {
    t := Tally([], map[], 0.0);
    for i := 0 to |holdings|
      invariant t == TallyOf(holdings[..i], coins, CategoryOf)
    {
      TallyPrefixStep(holdings, i, coins, CategoryOf);
      t := AbsorbHolding(t, holdings[i], coins);
    }
    assert holdings[..|holdings|] == holdings;
  }

  /** One more holding of the prefix is one more absorbed holding. */
  lemma TallyPrefixStep(holdings: seq<Holding>, i: nat, coins: seq<Coin>, categoryOf: string -> Category)
    requires i < |holdings|
    ensures TallyOf(holdings[..i + 1], coins, categoryOf) ==
            Absorb(TallyOf(holdings[..i], coins, categoryOf), holdings[i], coins, categoryOf)
  {
    assert holdings[..i + 1][..i] == holdings[..i];
  }

  /** The whole `forEach` body: skip a holding whose coin is missing,
      otherwise look up its category and add it. */
  method AbsorbHolding(t: Tally, holding: Holding, coins: seq<Coin>) returns (t': Tally)
    ensures t' == Absorb(t, holding, coins, CategoryOf)
  {
    var coin := FindCoin(coins, holding.coin);
    if coin.None? {
      AbsorbSkip(t, holding, coins, CategoryOf);
      t' := t;
    } else {
      var category := GetCoinCategory(holding.coin);
      t' := AddHolding(t, holding, coins, category, CategoryOf);
    }
  }

  /** The `forEach` body for a holding whose coin is found and whose
      category is already looked up. */
  method AddHolding(t: Tally, holding: Holding, coins: seq<Coin>, category: Category,
                    ghost categoryOf: string -> Category) returns (t': Tally)
    requires FindCoin(coins, holding.coin).Some? && categoryOf(holding.coin) == category
    ensures t' == Absorb(t, holding, coins, categoryOf)
  {
    AbsorbStep(t, holding, coins, categoryOf);
    var coin := FindCoin(coins, holding.coin).value;
    var currentValue := coin.currentPrice * holding.amount;
    assert currentValue == Contribution(holding, coins).value;
    var order, categoriesMap, totalPortfolioValue :=
      AddToCategory(t.order, t.buckets, t.total, category, currentValue, holding.coin);
    t' := Tally(order, categoriesMap, totalPortfolioValue);
  }

  /** The body of the `forEach` once the coin is found: add to the total,
      create the category's entry on first use, add the value and push the
      coin unless already listed. */
  method AddToCategory(order: seq<Category>, categoriesMap: map<Category, Bucket>, totalPortfolioValue: real,
                       category: Category, currentValue: real, coinId: string)
    returns (order': seq<Category>, categoriesMap': map<Category, Bucket>, totalPortfolioValue': real)
    ensures Tally(order', categoriesMap', totalPortfolioValue') ==
            AddValue(Tally(order, categoriesMap, totalPortfolioValue), category, currentValue, coinId)
  {
    totalPortfolioValue' := totalPortfolioValue + currentValue;
    order' := order;
    categoriesMap' := categoriesMap;
    if category !in categoriesMap' {
      categoriesMap' := categoriesMap'[category := Bucket(0.0, [])];
      order' := order' + [category];
    }
    var entry := categoriesMap'[category];
    entry := entry.(value := entry.value + currentValue);
    if coinId !in entry.coins {
      entry := entry.(coins := entry.coins + [coinId]);
    }
    categoriesMap' := categoriesMap'[category := entry];
    assert categoriesMap' == categoriesMap[category := entry];
  }

  // ---------------------------------------------------------------------
  // byCategory, risk and correlation
  // ---------------------------------------------------------------------

  /** One element of `byCategory`. */
  datatype Entry = Entry(name: Category, value: real, percentage: real, coins: seq<string>, riskScore: int)

  ghost predicate Keyed(t: Tally) {
    forall k :: 0 <= k < |t.order| ==> t.order[k] in t.buckets
  }

  /** `(data.value / totalPortfolioValue) * 100`. */
  function Percent(value: real, total: real): real
    requires total != 0.0
  {
    value / total * 100.0
  }

  /** A share is its value scaled by `100 / total`. */
  lemma PercentScales(value: real, total: real)
    requires total != 0.0
    ensures Percent(value, total) * total == value * 100.0
  {
    var q := value / total;
    assert q * total == value;
  }

  /** A non-negative value of a positive total has a non-negative share. */
  lemma PercentSign(value: real, total: real)
    requires total > 0.0 && value >= 0.0
    ensures Percent(value, total) >= 0.0
  {
    var q := value / total;
    assert q * total == value;
    MulMono(value, 0.0, 1.0 / total);
    assert q == value * (1.0 / total);
  }

  /** `byCategory` before sorting: one entry per key, in insertion order. */
  function ByCategory(t: Tally): (r: seq<Entry>)
    requires Keyed(t)
    requires |t.order| == 0 || t.total != 0.0
    ensures |r| == |t.order|
    ensures forall k :: 0 <= k < |r| ==> r[k].name == t.order[k] && r[k].value == t.buckets[t.order[k]].value &&
                                         r[k].percentage == Percent(r[k].value, t.total) &&
                                         r[k].coins == t.buckets[t.order[k]].coins &&
                                         r[k].riskScore == RiskOf(t.order[k])
  {
    seq(|t.order|, k requires 0 <= k < |t.order| =>
          var b := t.buckets[t.order[k]];
          Entry(t.order[k], b.value, Percent(b.value, t.total), b.coins, RiskOf(t.order[k])))
  }

  function PercentSum(e: seq<Entry>): real
    decreases |e|
  {
    if e == [] then 0.0 else PercentSum(e[..|e| - 1]) + e[|e| - 1].percentage
  }

  /** Entries whose percentages are their buckets' shares of `total` have
      percentages summing to the scaled bucket sum. */
  lemma {:induction false} PercentSumIsScaledValue(e: seq<Entry>, order: seq<Category>,
                                                   buckets: map<Category, Bucket>, total: real)
    requires |e| == |order| && total != 0.0 && forall k :: 0 <= k < |order| ==> order[k] in buckets
    requires forall k :: 0 <= k < |e| ==> e[k].percentage == Percent(buckets[order[k]].value, total)
    ensures PercentSum(e) * total == BucketSum(order, buckets) * 100.0
    decreases |e|
  {
    if e != [] {
      var e', o' := e[..|e| - 1], order[..|order| - 1];
      assert forall k :: 0 <= k < |e'| ==> e'[k] == e[k] && o'[k] == order[k];
      PercentSumIsScaledValue(e', o', buckets, total);
      PercentScales(buckets[order[|order| - 1]].value, total);
      Distribute(PercentSum(e'), e[|e| - 1].percentage, total);
    }
  }

  /** When the total is non-zero the percentages add up to 100. */
  lemma PercentagesSumToHundred(t: Tally)
    requires WellFormed(t) && t.total != 0.0
    ensures PercentSum(ByCategory(t)) == 100.0
  {
    assert Keyed(t);
    ByCategorySumsToHundred(t);
  }

  /** The same with only the facts the sum needs: every key has a bucket
      and the total is the bucket sum. */
  lemma ByCategorySumsToHundred(t: Tally)
    requires Keyed(t) && t.total != 0.0 && t.total == BucketSum(t.order, t.buckets)
    ensures PercentSum(ByCategory(t)) == 100.0
  {
    PercentSumIsScaledValue(ByCategory(t), t.order, t.buckets, t.total);
    ScaledTotalIsHundred(PercentSum(ByCategory(t)), BucketSum(t.order, t.buckets), t.total);
  }

  /** `p * total == sum * 100` with `sum == total != 0` forces `p == 100`. */
  lemma ScaledTotalIsHundred(p: real, sum: real, total: real)
    requires total != 0.0 && sum == total && p * total == sum * 100.0
    ensures p == 100.0
  {
    Cancel(p, 100.0, total);
  }

  lemma Distribute(x: real, y: real, t: real)
    ensures (x + y) * t == x * t + y * t
  {
  }

  lemma Cancel(x: real, y: real, t: real)
    requires t != 0.0 && x * t == y * t
    ensures x == y
  {
    assert (x - y) * t == 0.0;
  }

  /** One step of the weighted sum: adding a weight `p` at a risk `r` of
      at least `lo` keeps the running sum above its bound. */
  lemma WeightedStepLow(lo: real, sum: real, weighted: real, p: real, r: real)
    requires lo * sum / 100.0 <= weighted && p >= 0.0 && lo <= r
    ensures lo * (sum + p) / 100.0 <= weighted + r * (p / 100.0)
  {
    MulMono(p / 100.0, lo, r);
    assert lo * (sum + p) / 100.0 == lo * sum / 100.0 + lo * (p / 100.0);
  }

  /** The same for a risk of at most `hi`. */
  lemma WeightedStepHigh(hi: real, sum: real, weighted: real, p: real, r: real)
    requires weighted <= hi * sum / 100.0 && p >= 0.0 && r <= hi
    ensures weighted + r * (p / 100.0) <= hi * (sum + p) / 100.0
  {
    MulMono(p / 100.0, r, hi);
    assert hi * (sum + p) / 100.0 == hi * sum / 100.0 + hi * (p / 100.0);
  }

  /** `riskScore`: the `reduce` of `riskScore * (percentage / 100)`. */
  function WeightedRisk(e: seq<Entry>): real
    decreases |e|
  {
    if e == [] then 0.0
    else WeightedRisk(e[..|e| - 1]) + e[|e| - 1].riskScore as real * (e[|e| - 1].percentage / 100.0)
  }

  /** With non-negative weights the weighted risk lies between the lowest
      and the highest risk present, scaled by the total weight. */
  lemma WeightedRiskBetween(e: seq<Entry>, lo: real, hi: real)
    requires forall k :: 0 <= k < |e| ==> e[k].percentage >= 0.0 && lo <= e[k].riskScore as real <= hi
    ensures lo * PercentSum(e) / 100.0 <= WeightedRisk(e) <= hi * PercentSum(e) / 100.0
  {
    WeightedRiskAtLeast(e, lo);
    WeightedRiskAtMost(e, hi);
  }

  lemma {:induction false} WeightedRiskAtLeast(e: seq<Entry>, lo: real)
    requires forall k :: 0 <= k < |e| ==> e[k].percentage >= 0.0 && lo <= e[k].riskScore as real
    ensures lo * PercentSum(e) / 100.0 <= WeightedRisk(e)
    decreases |e|
  {
    if e != [] {
      var init := e[..|e| - 1];
      assert forall k :: 0 <= k < |init| ==> init[k] == e[k];
      WeightedRiskAtLeast(init, lo);
      var last := e[|e| - 1];
      WeightedStepLow(lo, PercentSum(init), WeightedRisk(init), last.percentage, last.riskScore as real);
    }
  }

  lemma {:induction false} WeightedRiskAtMost(e: seq<Entry>, hi: real)
    requires forall k :: 0 <= k < |e| ==> e[k].percentage >= 0.0 && e[k].riskScore as real <= hi
    ensures WeightedRisk(e) <= hi * PercentSum(e) / 100.0
    decreases |e|
  {
    if e != [] {
      var init := e[..|e| - 1];
      assert forall k :: 0 <= k < |init| ==> init[k] == e[k];
      WeightedRiskAtMost(init, hi);
      var last := e[|e| - 1];
      WeightedStepHigh(hi, PercentSum(init), WeightedRisk(init), last.percentage, last.riskScore as real);
    }
  }

  /** The `correlation * ((p_i + p_j) / 200)` term of one pair. */
  function PairTerm(e: seq<Entry>, i: nat, j: nat): real
    requires i < |e| && j < |e|
  {
    Correlation(e[i].name, e[j].name) * ((e[i].percentage + e[j].percentage) / 200.0)
  }

  /** The inner loop's sum over `i < j' < j`. */
  function RowSum(e: seq<Entry>, i: nat, j: nat): real
    requires i < |e| && j <= |e|
    decreases j
  {
    if j <= i + 1 then 0.0 else RowSum(e, i, j - 1) + PairTerm(e, i, j - 1)
  }

  /** The outer loop's sum over the rows `i' < i`. */
  function PairSum(e: seq<Entry>, i: nat): real
    requires i <= |e|
    decreases i
  {
    if i == 0 then 0.0 else PairSum(e, i - 1) + RowSum(e, i - 1, |e|)
  }

  /** `pairCount` after the rows `i' < i`. */
  function PairsBefore(n: nat, i: nat): nat
    requires i <= n
    decreases i
  {
    if i == 0 then 0 else PairsBefore(n, i - 1) + (n - i)
  }

  /** There are n(n-1)/2 unordered pairs. */
  lemma {:induction false} PairsBeforeClosedForm(n: nat, i: nat)
    requires i <= n
    ensures 2 * PairsBefore(n, i) == i * (2 * n - i - 1)
    decreases i
  {
    if i > 0 {
      PairsBeforeClosedForm(n, i - 1);
    }
  }

  /** The normalized `correlationScore`: the mean over unordered pairs, or
      0.5 when there is no pair. */
  function CorrelationScore(e: seq<Entry>): real {
    var pairs := PairsBefore(|e|, |e|);
    if pairs > 0 then PairSum(e, |e|) / pairs as real else 0.5
  }

  lemma PairsExistIffTwoCategories(n: nat)
    ensures PairsBefore(n, n) > 0 <==> n >= 2
    ensures 2 * PairsBefore(n, n) == n * (n - 1)
  {
    PairsBeforeClosedForm(n, n);
  }

  /** The nested loops of the correlation score. */
  method CorrelationScoreOf(byCategory: seq<Entry>) returns (score: real)
    ensures score == CorrelationScore(byCategory)
  {
    var n := |byCategory|;
    var correlationScore := 0.0;
    var pairCount := 0;
    for i := 0 to n
      invariant correlationScore == PairSum(byCategory, i)
      invariant pairCount == PairsBefore(n, i)
    {
      var rowScore, rowPairs := CorrelationRow(byCategory, i);
      correlationScore := correlationScore + rowScore;
      pairCount := pairCount + rowPairs;
    }
    score := if pairCount > 0 then correlationScore / pairCount as real else 0.5;
  }

  /** The inner loop for row `i`: the pairs `(i, j)` with `j > i`. */
  method CorrelationRow(byCategory: seq<Entry>, i: nat) returns (rowScore: real, rowPairs: nat)
    requires i < |byCategory|
    ensures rowScore == RowSum(byCategory, i, |byCategory|)
    ensures rowPairs == |byCategory| - i - 1
  {
    var n := |byCategory|;
    rowScore, rowPairs := 0.0, 0;
    for j := i + 1 to n
      invariant rowScore == RowSum(byCategory, i, j)
      invariant rowPairs == j - i - 1
    {
      var correlation := Correlation(byCategory[i].name, byCategory[j].name);
      assert correlation * ((byCategory[i].percentage + byCategory[j].percentage) / 200.0) ==
             PairTerm(byCategory, i, j);
      rowScore := rowScore + correlation * ((byCategory[i].percentage + byCategory[j].percentage) / 200.0);
      rowPairs := rowPairs + 1;
    }
  }

  lemma {:induction false} PercentBelowSum(e: seq<Entry>, i: nat)
    requires forall k :: 0 <= k < |e| ==> e[k].percentage >= 0.0
    requires i < |e|
    ensures e[i].percentage <= PercentSum(e)
    ensures PercentSum(e) >= 0.0
    decreases |e|
  {
    var init := e[..|e| - 1];
    assert forall k :: 0 <= k < |init| ==> init[k] == e[k];
    if i < |e| - 1 {
      PercentBelowSum(init, i);
    } else if init != [] {
      PercentBelowSum(init, 0);
    }
  }

  /** Two distinct entries together hold at most the whole. */
  lemma {:induction false} TwoPercentsBelowSum(e: seq<Entry>, i: nat, j: nat)
    requires forall k :: 0 <= k < |e| ==> e[k].percentage >= 0.0
    requires i < j < |e|
    ensures e[i].percentage + e[j].percentage <= PercentSum(e)
    decreases |e|
  {
    var init := e[..|e| - 1];
    assert forall k :: 0 <= k < |init| ==> init[k] == e[k];
    if j < |e| - 1 {
      TwoPercentsBelowSum(init, i, j);
      PercentBelowSum(e, |e| - 1);
    } else {
      PercentBelowSum(init, i);
    }
  }

  lemma {:induction false} RowSumBound(e: seq<Entry>, i: nat, j: nat)
    requires forall k :: 0 <= k < |e| ==> e[k].percentage >= 0.0
    requires PercentSum(e) == 100.0
    requires i < |e| && j <= |e|
    ensures 0.0 <= RowSum(e, i, j)
    ensures j > i ==> RowSum(e, i, j) <= 0.5 * (j - i - 1) as real
    decreases j
  {
    if j > i + 1 {
      RowSumBound(e, i, j - 1);
      PairTermBound(e, i, j - 1);
    }
  }

  /** One pair's term lies in [0, 0.5]. */
  lemma PairTermBound(e: seq<Entry>, i: nat, j: nat)
    requires forall k :: 0 <= k < |e| ==> e[k].percentage >= 0.0
    requires PercentSum(e) == 100.0
    requires i < j < |e|
    ensures 0.0 <= PairTerm(e, i, j) <= 0.5
  {
    TwoPercentsBelowSum(e, i, j);
    var w := (e[i].percentage + e[j].percentage) / 200.0;
    assert 0.0 <= w <= 0.5;
    MulMono(w, Correlation(e[i].name, e[j].name), 1.0);
    MulMono(w, 0.0, Correlation(e[i].name, e[j].name));
  }

  lemma {:induction false} PairSumBound(e: seq<Entry>, i: nat)
    requires forall k :: 0 <= k < |e| ==> e[k].percentage >= 0.0
    requires PercentSum(e) == 100.0
    requires i <= |e|
    ensures 0.0 <= PairSum(e, i) <= 0.5 * PairsBefore(|e|, i) as real
    decreases i
  {
    if i > 0 {
      PairSumBound(e, i - 1);
      RowSumBound(e, i - 1, |e|);
    }
  }

  /** Every pair term is at most one half, so the correlation score never
      exceeds 0.5 when the percentages are non-negative and add up to 100. */
  lemma CorrelationScoreAtMostHalf(e: seq<Entry>)
    requires forall k :: 0 <= k < |e| ==> e[k].percentage >= 0.0
    requires PercentSum(e) == 100.0
    ensures 0.0 <= CorrelationScore(e) <= 0.5
  {
    PairSumBound(e, |e|);
    var pairs := PairsBefore(|e|, |e|);
    if pairs > 0 {
      var s := PairSum(e, |e|);
      var q := s / pairs as real;
      assert q * pairs as real == s;
      if q > 0.5 {
        MulMono(pairs as real, 0.5, q);
      }
      if q < 0.0 {
        MulMono(pairs as real, q, 0.0);
      }
    }
  }

  // ---------------------------------------------------------------------
  // Sorting and recommendations
  // ---------------------------------------------------------------------

  /** `byCategory.sort((a, b) => b.percentage - a.percentage)`, a stable
      sort by descending percentage, written as an insertion sort. */
  function Insert(x: Entry, s: seq<Entry>): seq<Entry>
    decreases |s|
  {
    if s == [] then [x]
    else if x.percentage > s[0].percentage then [x] + s
    else [s[0]] + Insert(x, s[1..])
  }

  function SortDescending(s: seq<Entry>): seq<Entry>
    decreases |s|
  {
    if s == [] then [] else Insert(s[|s| - 1], SortDescending(s[..|s| - 1]))
  }

  ghost predicate Descending(s: seq<Entry>) {
    forall i, j :: 0 <= i < j < |s| ==> s[i].percentage >= s[j].percentage
  }

  lemma {:induction false} InsertPermutes(x: Entry, s: seq<Entry>)
    ensures multiset(Insert(x, s)) == multiset(s) + multiset{x}
    ensures |Insert(x, s)| == |s| + 1
    decreases |s|
  {
    if s != [] && x.percentage <= s[0].percentage {
      InsertPermutes(x, s[1..]);
      assert s == [s[0]] + s[1..];
    }
  }

  lemma {:induction false} InsertElements(x: Entry, s: seq<Entry>)
    ensures forall k :: 0 <= k < |Insert(x, s)| ==> Insert(x, s)[k] == x || Insert(x, s)[k] in s
    decreases |s|
  {
    if s != [] && x.percentage <= s[0].percentage {
      InsertElements(x, s[1..]);
      var r := Insert(x, s);
      forall k | 0 <= k < |r| ensures r[k] == x || r[k] in s {
        if k > 0 {
          assert r[k] == Insert(x, s[1..])[k - 1];
        }
      }
    }
  }

  lemma {:induction false} InsertDescending(x: Entry, s: seq<Entry>)
    requires Descending(s)
    ensures Descending(Insert(x, s))
    decreases |s|
  {
    if s != [] && x.percentage <= s[0].percentage {
      InsertDescending(x, s[1..]);
      InsertElements(x, s[1..]);
      var r := Insert(x, s);
      var rest := Insert(x, s[1..]);
      assert r == [s[0]] + rest;
      forall j | 0 < j < |r| ensures r[0].percentage >= r[j].percentage {
        assert r[j] == rest[j - 1];
        if rest[j - 1] != x {
          var m :| 0 <= m < |s[1..]| && s[1..][m] == rest[j - 1];
          assert s[1 + m] == rest[j - 1];
        }
      }
    }
  }

  lemma {:induction false} SortDescendingSorted(s: seq<Entry>)
    ensures Descending(SortDescending(s))
    decreases |s|
  {
    if s != [] {
      SortDescendingSorted(s[..|s| - 1]);
      InsertDescending(s[|s| - 1], SortDescending(s[..|s| - 1]));
    }
  }

  lemma {:induction false} SortDescendingPermutes(s: seq<Entry>)
    ensures multiset(SortDescending(s)) == multiset(s)
    ensures |SortDescending(s)| == |s|
    decreases |s|
  {
    if s != [] {
      var init, x := s[..|s| - 1], s[|s| - 1];
      assert s == init + [x];
      SortDescendingPermutes(init);
      InsertStep(init, x, SortDescending(init));
    }
  }

  lemma InsertStep(init: seq<Entry>, x: Entry, sorted: seq<Entry>)
    requires multiset(sorted) == multiset(init) && |sorted| == |init|
    ensures multiset(Insert(x, sorted)) == multiset(init + [x]) && |Insert(x, sorted)| == |init| + 1
  {
    InsertPermutes(x, sorted);
    assert multiset(init + [x]) == multiset(init) + multiset{x};
  }

  /** The sort yields a descending permutation of its input. */
  lemma SortDescendingSpec(s: seq<Entry>)
    ensures Descending(SortDescending(s))
    ensures multiset(SortDescending(s)) == multiset(s)
    ensures |SortDescending(s)| == |s|
  {
    SortDescendingSorted(s);
    SortDescendingPermutes(s);
  }

  /** The first sorted entry, `largestCategory`, has the largest share. */
  lemma LargestIsFirst(s: seq<Entry>)
    requires s != []
    ensures SortDescending(s) != []
    ensures forall k :: 0 <= k < |s| ==> s[k].percentage <= SortDescending(s)[0].percentage
    ensures SortDescending(s)[0] in s
  {
    SortDescendingSpec(s);
    var r := SortDescending(s);
    forall k | 0 <= k < |s| ensures s[k].percentage <= r[0].percentage {
      assert s[k] in multiset(r);
      var m :| 0 <= m < |r| && r[m] == s[k];
    }
    assert r[0] in multiset(s);
  }

  lemma {:induction false} PercentSumPrepend(x: Entry, s: seq<Entry>)
    ensures PercentSum([x] + s) == x.percentage + PercentSum(s)
    decreases |s|
  {
    if s == [] {
      assert ([x] + s)[..0] == [];
    } else {
      PercentSumPrepend(x, s[..|s| - 1]);
      assert ([x] + s)[..|[x] + s| - 1] == [x] + s[..|s| - 1];
    }
  }

  lemma {:induction false} InsertPercentSum(x: Entry, s: seq<Entry>)
    ensures PercentSum(Insert(x, s)) == PercentSum(s) + x.percentage
    decreases |s|
  {
    if s == [] {
      assert [x][..0] == [];
    } else if x.percentage > s[0].percentage {
      PercentSumPrepend(x, s);
    } else {
      InsertPercentSum(x, s[1..]);
      PercentSumPrepend(s[0], Insert(x, s[1..]));
      PercentSumPrepend(s[0], s[1..]);
      assert [s[0]] + s[1..] == s;
    }
  }

  /** Sorting does not change the total percentage. */
  lemma {:induction false} SortKeepsPercentSum(s: seq<Entry>)
    ensures PercentSum(SortDescending(s)) == PercentSum(s)
    decreases |s|
  {
    if s != [] {
      SortKeepsPercentSum(s[..|s| - 1]);
      InsertPercentSum(s[|s| - 1], SortDescending(s[..|s| - 1]));
    }
  }

  datatype Recommendation =
    | HighConcentration(category: Category, percentage: real)
    | MissingCategories(shown: seq<Category>)
    | HighRisk
    | HighCorrelation
    | FewAssets

  /** `missingCategories`: table categories absent from `byCategory`,
      except Other, Meme Coins and Privacy. */
  function Missing(present: seq<Category>): seq<Category> {
    Filter(TableOrder, SuggestibleIn(present))
  }

  function SuggestibleIn(present: seq<Category>): Category -> bool {
    (c: Category) => Suggestible(c, present)
  }

  /** A category the missing-categories hint may name. */
  predicate Suggestible(c: Category, present: seq<Category>) {
    c !in present && c != Other && c != MemeCoins && c != Privacy
  }

  /** Every category is a key of the table. */
  lemma InTable(c: Category) returns (k: nat)
    ensures k < |TableOrder| && TableOrder[k] == c
  {
    match c
    case Layer1 => k := 0;
    case Layer2 => k := 1;
    case DeFi => k := 2;
    case Stablecoins => k := 3;
    case ExchangeTokens => k := 4;
    case MemeCoins => k := 5;
    case Privacy => k := 6;
    case MetaverseGaming => k := 7;
    case StorageComputing => k := 8;
    case Other => k := 9;
  }

  /** `presentCategories`: the names of the entries, in order. */
  function Names(e: seq<Entry>): seq<Category> {
    seq(|e|, k requires 0 <= k < |e| => e[k].name)
  }

  lemma NamesSpec(e: seq<Entry>)
    ensures |Names(e)| == |e| && forall k :: 0 <= k < |e| ==> Names(e)[k] == e[k].name
    ensures forall c :: c in Names(e) <==> exists k :: 0 <= k < |e| && e[k].name == c
  {
  }

  /** The categories the missing-categories message lists: the first three. */
  function Shown(missing: seq<Category>): (r: seq<Category>)
    ensures |r| <= 3 && |r| <= |missing| && (|missing| > 0 ==> |r| > 0)
    ensures r == missing[..|r|]
  {
    if |missing| <= 3 then missing else missing[..3]
  }

  function Concentration(sorted: seq<Entry>): seq<Recommendation> {
    if |sorted| > 0 && sorted[0].percentage > 50.0
    then [HighConcentration(sorted[0].name, sorted[0].percentage)] else []
  }

  function MissingRule(sorted: seq<Entry>): seq<Recommendation> {
    HintFor(Missing(Names(sorted)))
  }

  /** The push for a list of missing categories. */
  function HintFor(missing: seq<Category>): seq<Recommendation> {
    if |missing| > 0 then [MissingCategories(Shown(missing))] else []
  }

  function Flags(riskScore: real, correlationScore: real, holdingCount: nat): seq<Recommendation> {
    (if riskScore > 7.0 then [HighRisk] else []) +
    (if correlationScore > 0.7 then [HighCorrelation] else []) +
    (if holdingCount < 3 then [FewAssets] else [])
  }

  /** The recommendations, pushed in this order, each on its own rule. */
  function Recommend(sorted: seq<Entry>, riskScore: real, correlationScore: real, holdingCount: nat)
    : seq<Recommendation>
  {
    Concentration(sorted) + MissingRule(sorted) + Flags(riskScore, correlationScore, holdingCount)
  }

  /** The three flag rules fire exactly on their thresholds. */
  lemma FlagRules(riskScore: real, correlationScore: real, holdingCount: nat)
    ensures var f := Flags(riskScore, correlationScore, holdingCount);
      (HighRisk in f <==> riskScore > 7.0) &&
      (HighCorrelation in f <==> correlationScore > 0.7) &&
      (FewAssets in f <==> holdingCount < 3) &&
      forall k :: 0 <= k < |f| ==> !f[k].HighConcentration? && !f[k].MissingCategories?
  {
  }

  /** A list that starts with at most one concentration warning and has
      none after it. */
  lemma {:induction false} HeadRule(c: seq<Recommendation>, m: seq<Recommendation>, f: seq<Recommendation>)
    requires |c| <= 1
    requires forall k :: 0 <= k < |m| ==> !m[k].HighConcentration?
    requires forall k :: 0 <= k < |f| ==> !f[k].HighConcentration?
    ensures (exists k :: 0 <= k < |c + m + f| && (c + m + f)[k].HighConcentration?) <==>
            (c != [] && c[0].HighConcentration?)
    ensures c != [] ==> (c + m + f)[0] == c[0]
  {
    var r := c + m + f;
    assert forall k :: |c| + |m| <= k < |r| ==> r[k] == f[k - |c| - |m|];
    assert forall k :: |c| <= k < |c| + |m| ==> r[k] == m[k - |c|];
    assert c != [] ==> r[0] == c[0];
  }

  lemma MissingRuleKind(sorted: seq<Entry>)
    ensures |MissingRule(sorted)| <= 1
    ensures forall k :: 0 <= k < |MissingRule(sorted)| ==> MissingRule(sorted)[k].MissingCategories?
  {
    HintKind(Missing(Names(sorted)));
  }

  lemma HintKind(missing: seq<Category>)
    ensures |HintFor(missing)| <= 1
    ensures forall k :: 0 <= k < |HintFor(missing)| ==> HintFor(missing)[k].MissingCategories?
  {
  }

  /** The concentration warning comes first, naming the largest category,
      and there is one exactly when that category holds more than half. */
  lemma ConcentrationRule(sorted: seq<Entry>, riskScore: real, correlationScore: real, holdingCount: nat)
    ensures var r := Recommend(sorted, riskScore, correlationScore, holdingCount);
      (|sorted| > 0 && sorted[0].percentage > 50.0 ==>
         r[0] == HighConcentration(sorted[0].name, sorted[0].percentage)) &&
      ((exists k :: 0 <= k < |r| && r[k].HighConcentration?) <==> |sorted| > 0 && sorted[0].percentage > 50.0)
  {
    FlagRules(riskScore, correlationScore, holdingCount);
    MissingRuleKind(sorted);
    HeadRule(Concentration(sorted), MissingRule(sorted), Flags(riskScore, correlationScore, holdingCount));
  }

  /** The missing categories are exactly the suggestible ones. */
  lemma MissingSpec(present: seq<Category>)
    ensures Missing(present) == [] <==> forall c: Category :: !Suggestible(c, present)
    ensures forall j :: 0 <= j < |Missing(present)| ==> Suggestible(Missing(present)[j], present)
  {
    EveryCategoryListed();
    SuggestibleFilter(TableOrder, present);
  }

  lemma EveryCategoryListed()
    ensures forall c: Category :: c in TableOrder
  {
    forall c: Category
      ensures c in TableOrder
    {
      var k := InTable(c);
    }
  }

  /** Filtering a list of every category by `Suggestible` keeps only
      suggestible ones, and is empty exactly when none is. */
  lemma SuggestibleFilter(order: seq<Category>, present: seq<Category>)
    requires forall c: Category :: c in order
    ensures Filter(order, SuggestibleIn(present)) == [] <==> forall c: Category :: !Suggestible(c, present)
    ensures forall j :: 0 <= j < |Filter(order, SuggestibleIn(present))| ==>
              Suggestible(Filter(order, SuggestibleIn(present))[j], present)
  {
    var r := Filter(order, SuggestibleIn(present));
    FilterSpec(order, SuggestibleIn(present));
    assert forall c :: SuggestibleIn(present)(c) == Suggestible(c, present);
    if exists c: Category :: Suggestible(c, present) {
      var c: Category :| Suggestible(c, present);
      assert c in order;
      var k :| 0 <= k < |order| && order[k] == c;
      assert SuggestibleIn(present)(order[k]);
      assert order[k] in r;
    }
    if r != [] {
      assert Suggestible(r[0], present);
    }
  }

  /** The missing-categories hint fires exactly when some category other
      than Other, Meme Coins and Privacy is absent. */
  lemma MissingRuleFires(sorted: seq<Entry>)
    ensures MissingRule(sorted) == [] <==> forall c: Category :: !Suggestible(c, Names(sorted))
  {
    MissingSpec(Names(sorted));
  }

  /** When it fires it is a single hint naming one to three absent
      categories, none of them excluded, in table order. */
  lemma MissingRuleShows(sorted: seq<Entry>)
    ensures MissingRule(sorted) != [] ==>
              |MissingRule(sorted)| == 1 && MissingRule(sorted)[0].MissingCategories? &&
              0 < |MissingRule(sorted)[0].shown| <= 3 &&
              MissingRule(sorted)[0].shown == Missing(Names(sorted))[..|MissingRule(sorted)[0].shown|] &&
              forall j :: 0 <= j < |MissingRule(sorted)[0].shown| ==> Suggestible(MissingRule(sorted)[0].shown[j], Names(sorted))
  {
    var present := Names(sorted);
    MissingSpec(present);
    ShownKeeps(Missing(present), present);
  }

  lemma ShownKeeps(missing: seq<Category>, present: seq<Category>)
    requires forall j :: 0 <= j < |missing| ==> Suggestible(missing[j], present)
    ensures forall j :: 0 <= j < |Shown(missing)| ==> Suggestible(Shown(missing)[j], present)
  {
    var shown := Shown(missing);
    assert forall j :: 0 <= j < |shown| ==> shown[j] == missing[j];
  }

  // ---------------------------------------------------------------------
  // The analysis
  // ---------------------------------------------------------------------

  datatype Analysis = Analysis(byCategory: seq<Entry>, riskScore: real, correlationScore: real,
                               diversificationScore: real, recommendations: seq<Recommendation>)

  /** `NotRun`: the effect's guard failed and the previous result stays.
      `ZeroValue`: categories exist but their total value is zero, so the
      percentages divide by zero; it keeps the aggregation and the advice
      that does not depend on a percentage. */
  datatype Outcome = NotRun | ZeroValue(tally: Tally, recommendations: seq<Recommendation>)
                   | Analyzed(analysis: Analysis)

  /** The advice of a zero-total analysis. The risk score is then `NaN` and
      so is the correlation score (or it is 0.5 with a single category), so
      neither the high-risk nor the high-correlation test passes; the
      missing-categories and few-assets pushes do not read a percentage. */
  function ZeroHints(missing: seq<Category>, holdingCount: nat): seq<Recommendation> {
    HintFor(missing) + (if holdingCount < 3 then [FewAssets] else [])
  }

  /** `diversificationScore`: 100 less half the risk (out of 10) and half
      the correlation (out of 1), each scaled to 50. */
  function DiversificationScore(riskScore: real, correlationScore: real): (r: real)
    ensures riskScore <= 10.0 && correlationScore <= 0.5 ==> r >= 25.0
    ensures riskScore >= 0.0 && correlationScore >= 0.0 ==> r <= 100.0
  {
    100.0 - (riskScore / 10.0 * 50.0 + correlationScore * 50.0)
  }

  /** The part of the analysis after the aggregation. */
  function Score(e: seq<Entry>, holdingCount: nat): Analysis {
    var risk := WeightedRisk(e);
    var corr := CorrelationScore(e);
    var sorted := SortDescending(e);
    Analysis(sorted, risk, corr, DiversificationScore(risk, corr), Recommend(sorted, risk, corr, holdingCount))
  }

  /** `analyzePortfolioDiversification` behind the effect's guard. */
  function AnalysisOf(holdings: seq<Holding>, coins: seq<Coin>): Outcome {
    if |holdings| == 0 || |coins| == 0 then NotRun
    else
      var t := TallyOf(holdings, coins, CategoryOf);
      TallyWellFormed(holdings, coins, CategoryOf);
      if |t.order| > 0 && t.total == 0.0 then ZeroValue(t, ZeroHints(Missing(t.order), |holdings|))
      else Analyzed(Score(ByCategory(t), |holdings|))
  }

  method Analyze(holdings: seq<Holding>, coins: seq<Coin>) returns (outcome: Outcome)
    ensures outcome == AnalysisOf(holdings, coins)
  {
    if |holdings| == 0 || |coins| == 0 {
      return NotRun;
    }
    var t := TallyHoldings(holdings, coins);
    TallyWellFormed(holdings, coins, CategoryOf);
    if |t.order| > 0 && t.total == 0.0 {
      var hints := ZeroAdvice(t.order, |holdings|);
      return ZeroValue(t, hints);
    }
    var byCategory := ByCategory(t);
    var analysis := ScoreCategories(byCategory, |holdings|);
    return Analyzed(analysis);
  }

  /** From `byCategory` on: risk, correlation, the composite score, the sort
      and the recommendation pushes. */
  method ScoreCategories(byCategory: seq<Entry>, holdingCount: nat) returns (a: Analysis)
    ensures a == Score(byCategory, holdingCount)
  {
    var riskScore := WeightedRisk(byCategory);
    var correlationScore := CorrelationScoreOf(byCategory);
    var diversificationScore := 100.0 - (riskScore / 10.0 * 50.0 + correlationScore * 50.0);
    var sorted := SortDescending(byCategory);
    var recommendations := PortfolioHints(sorted);
    var flags := ScoreFlags(riskScore, correlationScore, holdingCount);
    recommendations := recommendations + flags;
    a := Analysis(sorted, riskScore, correlationScore, diversificationScore, recommendations);
  }

  /** The concentration and missing-categories pushes. */
  method PortfolioHints(sorted: seq<Entry>) returns (recommendations: seq<Recommendation>)
    ensures recommendations == Concentration(sorted) + MissingRule(sorted)
  {
    recommendations := [];
    if |sorted| > 0 && sorted[0].percentage > 50.0 {
      recommendations := recommendations + [HighConcentration(sorted[0].name, sorted[0].percentage)];
    }
    assert recommendations == Concentration(sorted);
    var missingHint := MissingHint(Names(sorted));
    assert missingHint == MissingRule(sorted);
    recommendations := recommendations + missingHint;
  }

  /** The missing-categories push. */
  method MissingHint(present: seq<Category>) returns (hint: seq<Recommendation>)
    ensures hint == HintFor(Missing(present))
  {
    hint := [];
    var missingCategories := Missing(present);
    if |missingCategories| > 0 {
      hint := [MissingCategories(Shown(missingCategories))];
    }
  }

  /** The pushes of a zero-total analysis: the missing-categories push,
      then the few-assets push; the `NaN` risk and correlation scores fail
      their tests. */
  method ZeroAdvice(present: seq<Category>, holdingCount: nat) returns (hints: seq<Recommendation>)
    ensures hints == ZeroHints(Missing(present), holdingCount)
  {
    hints := MissingHint(present);
    if holdingCount < 3 {
      hints := hints + [FewAssets];
    }
  }

  /** The risk, correlation and few-assets pushes. */
  method ScoreFlags(riskScore: real, correlationScore: real, holdingCount: nat) returns (flags: seq<Recommendation>)
    ensures flags == Flags(riskScore, correlationScore, holdingCount)
  {
    flags := [];
    if riskScore > 7.0 {
      flags := flags + [HighRisk];
    }
    if correlationScore > 0.7 {
      flags := flags + [HighCorrelation];
    }
    if holdingCount < 3 {
      flags := flags + [FewAssets];
    }
  }

  /** With non-negative percentages adding up to 100: the risk score lies
      between 3 and 10, the correlation score is at most 0.5 and the
      diversification score is at least 25. */
  lemma ScoreBounds(e: seq<Entry>)
    requires forall k :: 0 <= k < |e| ==> e[k].percentage >= 0.0 && 3 <= e[k].riskScore <= 10
    requires PercentSum(e) == 100.0
    ensures 3.0 <= WeightedRisk(e) <= 10.0
    ensures 0.0 <= CorrelationScore(e) <= 0.5
    ensures 25.0 <= DiversificationScore(WeightedRisk(e), CorrelationScore(e)) <= 100.0
  {
    WeightedRiskBetween(e, 3.0, 10.0);
    CorrelationScoreAtMostHalf(e);
  }

  /** So the high-correlation recommendation never fires. */
  lemma NeverHighCorrelation(e: seq<Entry>, holdingCount: nat)
    requires CorrelationScore(e) <= 0.5
    ensures HighCorrelation !in Score(e, holdingCount).recommendations
  {
    RecommendFlags(SortDescending(e), WeightedRisk(e), CorrelationScore(e), holdingCount);
  }

  /** With non-negative prices and amounts, whenever some holding is priced
      the category percentages are non-negative, add up to 100, and carry
      their table risk, so the bounds above apply. */
  lemma CategoriesAreWeights(holdings: seq<Holding>, coins: seq<Coin>, categoryOf: string -> Category)
    requires forall k :: 0 <= k < |holdings| ==> holdings[k].amount >= 0.0
    requires forall k :: 0 <= k < |coins| ==> coins[k].currentPrice >= 0.0
    requires TallyOf(holdings, coins, categoryOf).total != 0.0
    ensures Keyed(TallyOf(holdings, coins, categoryOf))
    ensures var e := ByCategory(TallyOf(holdings, coins, categoryOf));
      PercentSum(e) == 100.0 &&
      forall k :: 0 <= k < |e| ==> e[k].percentage >= 0.0 && 3 <= e[k].riskScore <= 10
  {
    TallyWellFormed(holdings, coins, categoryOf);
    TallyNonNegative(holdings, coins, categoryOf);
    EntriesAreWeights(TallyOf(holdings, coins, categoryOf));
  }

  lemma EntriesAreWeights(t: Tally)
    requires WellFormed(t) && t.total > 0.0
    requires forall c :: c in t.buckets ==> t.buckets[c].value >= 0.0
    ensures var e := ByCategory(t);
      PercentSum(e) == 100.0 &&
      forall k :: 0 <= k < |e| ==> e[k].percentage >= 0.0 && 3 <= e[k].riskScore <= 10
  {
    var e := ByCategory(t);
    PercentagesSumToHundred(t);
    forall k | 0 <= k < |e| ensures e[k].percentage >= 0.0 && 3 <= e[k].riskScore <= 10 {
      PercentSign(t.buckets[t.order[k]].value, t.total);
      RiskDefaultUnused(t.order[k]);
    }
  }

  /** The bounds for any aggregation of non-negative values: with no
      category the risk score is 0 and the correlation default 0.5. */
  lemma TallyScoreBounds(t: Tally)
    requires WellFormed(t) && t.total >= 0.0 && (|t.order| == 0 || t.total != 0.0)
    requires forall c :: c in t.buckets ==> t.buckets[c].value >= 0.0
    ensures Keyed(t)
    ensures var e := ByCategory(t);
      0.0 <= WeightedRisk(e) <= 10.0 && (e != [] ==> 3.0 <= WeightedRisk(e)) &&
      0.0 <= CorrelationScore(e) <= 0.5 &&
      25.0 <= DiversificationScore(WeightedRisk(e), CorrelationScore(e))
  {
    assert Keyed(t);
    var e := ByCategory(t);
    if |t.order| == 0 {
      assert e == [];
    } else {
      EntriesAreWeights(t);
      ScoreBounds(e);
    }
  }

  /** Whenever the analysis runs on non-negative prices and amounts, its
      risk score is at most 10 (at least 3 once a category exists), its
      correlation score at most 0.5, so the high-correlation
      recommendation never fires, and its diversification score at least
      25. */
  lemma AnalysisBounds(holdings: seq<Holding>, coins: seq<Coin>)
    requires forall k :: 0 <= k < |holdings| ==> holdings[k].amount >= 0.0
    requires forall k :: 0 <= k < |coins| ==> coins[k].currentPrice >= 0.0
    ensures AnalysisOf(holdings, coins).Analyzed? ==>
              var a := AnalysisOf(holdings, coins).analysis;
              0.0 <= a.riskScore <= 10.0 && (a.byCategory != [] ==> 3.0 <= a.riskScore) &&
              0.0 <= a.correlationScore <= 0.5 && 25.0 <= a.diversificationScore &&
              HighCorrelation !in a.recommendations
  {
    if AnalysisOf(holdings, coins).Analyzed? {
      var t := TallyOf(holdings, coins, CategoryOf);
      TallyWellFormed(holdings, coins, CategoryOf);
      TallyNonNegative(holdings, coins, CategoryOf);
      TallyScoreBounds(t);
      var e := ByCategory(t);
      NeverHighCorrelation(e, |holdings|);
      SortDescendingSpec(e);
    }
  }

  /** A zero-total analysis keeps the aggregation and gives the advice
      of `ZeroHints`. */
  lemma ZeroValueAdvice(holdings: seq<Holding>, coins: seq<Coin>)
    ensures AnalysisOf(holdings, coins).ZeroValue? ==>
              var o := AnalysisOf(holdings, coins);
              o.tally == TallyOf(holdings, coins, CategoryOf) && o.tally.total == 0.0 && o.tally.order != [] &&
              o.recommendations == ZeroHints(Missing(o.tally.order), |holdings|)
  {
  }

  /** In the zero-total advice the few-assets hint appears exactly with
      fewer than three holdings, and the high-risk and high-correlation
      hints never do. */
  lemma ZeroHintsFlags(missing: seq<Category>, holdingCount: nat)
    ensures var r := ZeroHints(missing, holdingCount);
              (FewAssets in r <==> holdingCount < 3) && HighRisk !in r && HighCorrelation !in r
  {
    var r := ZeroHints(missing, holdingCount);
    assert FewAssets in r <==> FewAssets in (if holdingCount < 3 then [FewAssets] else []);
  }

  /** In the zero-total advice the missing-categories hint comes first, is
      there exactly when some category is missing, and names the first one
      to three of them. */
  lemma ZeroHintsMissing(missing: seq<Category>, holdingCount: nat)
    ensures var r := ZeroHints(missing, holdingCount);
              ((exists k :: 0 <= k < |r| && r[k].MissingCategories?) <==> missing != []) &&
              (forall k :: 0 <= k < |r| && r[k].MissingCategories? ==>
                 k == 0 && 0 < |r[k].shown| <= 3 && r[k].shown == missing[..|r[k].shown|])
  {
    var m := HintFor(missing);
    var r := ZeroHints(missing, holdingCount);
    assert forall k :: |m| <= k < |r| ==> r[k] == FewAssets;
    if missing != [] {
      assert r[0] == m[0];
    }
  }

  /** In the whole list, the three flag recommendations appear exactly on
      their thresholds. */
  lemma RecommendFlags(sorted: seq<Entry>, riskScore: real, correlationScore: real, holdingCount: nat)
    ensures var r := Recommend(sorted, riskScore, correlationScore, holdingCount);
      (HighRisk in r <==> riskScore > 7.0) &&
      (HighCorrelation in r <==> correlationScore > 0.7) &&
      (FewAssets in r <==> holdingCount < 3)
  {
    FlagRules(riskScore, correlationScore, holdingCount);
    MissingRuleKind(sorted);
    var f := Flags(riskScore, correlationScore, holdingCount);
    FlagsAfterHints(Concentration(sorted), MissingRule(sorted), f, HighRisk);
    FlagsAfterHints(Concentration(sorted), MissingRule(sorted), f, HighCorrelation);
    FlagsAfterHints(Concentration(sorted), MissingRule(sorted), f, FewAssets);
  }

  lemma FlagsAfterHints(c: seq<Recommendation>, m: seq<Recommendation>, f: seq<Recommendation>, x: Recommendation)
    requires forall k :: 0 <= k < |c| ==> c[k].HighConcentration?
    requires forall k :: 0 <= k < |m| ==> m[k].MissingCategories?
    requires x.HighRisk? || x.HighCorrelation? || x.FewAssets?
    ensures x in c + m + f <==> x in f
  {
  }

  /** One category: its own risk, and the no-pair correlation default. */
  lemma SingleCategoryScores(x: Entry)
    requires x.percentage == 100.0
    ensures WeightedRisk([x]) == x.riskScore as real
    ensures CorrelationScore([x]) == 0.5
  {
    assert [x][..0] == [];
    assert PairsBefore(1, 1) == 0;
  }

  /** A portfolio in a single category: the risk score is that category's
      risk, the correlation score is the no-pair default 0.5, the
      concentration warning comes first, and the few-assets hint fires
      below three holdings. */
  lemma SingleCategoryScenario(x: Entry, holdingCount: nat)
    requires x.percentage == 100.0
    ensures var a := Score([x], holdingCount);
      a.riskScore == x.riskScore as real && a.correlationScore == 0.5 &&
      a.diversificationScore == 75.0 - x.riskScore as real * 5.0 &&
      a.recommendations[0] == HighConcentration(x.name, 100.0) &&
      (FewAssets in a.recommendations <==> holdingCount < 3)
  {
    var e := [x];
    SingleCategoryScores(x);
    assert SortDescending(e) == e;
    ConcentrationRule(e, x.riskScore as real, 0.5, holdingCount);
    RecommendFlags(e, x.riskScore as real, 0.5, holdingCount);
  }

  /** A meme-coin-only portfolio has risk 10 and scores the minimum, 25. */
  lemma MemeOnlyScenario(x: Entry)
    requires x.name == MemeCoins && x.percentage == 100.0 && x.riskScore == RiskOf(MemeCoins)
    ensures Score([x], 1).riskScore == 10.0 && Score([x], 1).diversificationScore == 25.0
  {
    SingleCategoryScenario(x, 1);
  }

  /** Dogecoin is a meme coin. */
  lemma DogecoinIsMeme()
    ensures CategoryOf("dogecoin") == MemeCoins
  {
    var d := "dogecoin";
    assert d !in Members(Layer1) && d !in Members(Layer2) && d !in Members(DeFi);
    assert d !in Members(Stablecoins) && d !in Members(ExchangeTokens);
    assert d in Members(MemeCoins);
    FirstCategoryAt(TableOrder, Members, d, 5);
  }

  /** A coin in the `i`-th list and in none before it is the `i`-th category. */
  lemma {:induction false} FirstCategoryAt(order: seq<Category>, table: Category -> set<string>,
                                           coinId: string, i: nat)
    requires i < |order| && coinId in table(order[i])
    requires forall k :: 0 <= k < i ==> coinId !in table(order[k])
    ensures FirstCategory(order, table, coinId) == order[i]
    decreases i
  {
    if i > 0 {
      assert forall k :: 0 <= k < i - 1 ==> order[1..][k] == order[k + 1];
      FirstCategoryAt(order[1..], table, coinId, i - 1);
    }
  }
}
