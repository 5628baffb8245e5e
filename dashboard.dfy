/** The dashboard's own rules: the case-insensitive search over coin names
    and symbols (both when the query changes and when the data refreshes),
    the timeframe-to-days mapping and the twelve-card grid. */
module Dashboard {
  import opened Collections
  import opened Text
  import opened Market

  /** The coin's lower-cased name or symbol contains the lower-cased query. */
  predicate Matches(query: string, c: Coin) {
    Contains(ToLower(c.name), ToLower(query)) || Contains(ToLower(c.symbol), ToLower(query))
  }

  function MatchesQuery(query: string): Coin -> bool {
    (c: Coin) => Matches(query, c)
  }

  /** The search effect: an empty query shows everything, otherwise only
      the matching coins. */
  function SearchFilter(coins: seq<Coin>, query: string): seq<Coin> {
    if query == "" then coins else Filter(coins, MatchesQuery(query))
  }

  /** An empty query leaves the list unchanged; a non-empty one keeps
      exactly the matching coins. */
  lemma SearchSpec(coins: seq<Coin>, query: string)
    ensures query == "" ==> SearchFilter(coins, query) == coins
    ensures query != "" ==> forall k :: 0 <= k < |SearchFilter(coins, query)| ==>
              SearchFilter(coins, query)[k] in coins && Matches(query, SearchFilter(coins, query)[k])
    ensures query != "" ==> forall k :: 0 <= k < |coins| && Matches(query, coins[k]) ==>
              coins[k] in SearchFilter(coins, query)
  {
    if query != "" {
      var f := MatchesQuery(query);
      FilterSpec(coins, f);
      assert forall c :: f(c) == Matches(query, c);
    }
  }

  /** The search keeps the market order: searching a concatenation searches
      each part. */
  lemma SearchKeepsOrder(a: seq<Coin>, b: seq<Coin>, query: string)
    ensures SearchFilter(a + b, query) == SearchFilter(a, query) + SearchFilter(b, query)
  {
    if query != "" {
      FilterConcat(a, b, MatchesQuery(query));
    }
  }

  /** Every character of a string and of its upper-cased form have the same
      lower case. */
  lemma LowerOfUpper(s: string)
    ensures ToLower(ToUpper(s)) == ToLower(s)
  {
    assert forall k :: 0 <= k < |s| ==> LowerChar(UpperChar(s[k])) == LowerChar(s[k]);
  }

  lemma {:induction false} FilterSameRule(s: seq<Coin>, f: Coin -> bool, g: Coin -> bool)
    requires forall k :: 0 <= k < |s| ==> f(s[k]) == g(s[k])
    ensures Filter(s, f) == Filter(s, g)
    decreases |s|
  {
    if s != [] {
      FilterSameRule(s[1..], f, g);
    }
  }

  /** The search ignores the case of the query. */
  lemma QueryCaseInsensitive(coins: seq<Coin>, query: string)
    ensures SearchFilter(coins, ToUpper(query)) == SearchFilter(coins, query)
  {
    LowerOfUpper(query);
    if query != "" {
      assert ToUpper(query) != "";
      FilterSameRule(coins, MatchesQuery(ToUpper(query)), MatchesQuery(query));
    }
  }

  /** The dashboard's market list and the list it shows. */
  datatype View = View(cryptoData: seq<Coin>, filteredData: seq<Coin>)

  /** `refreshData`: store the new data and filter it by the current query. */
  function RefreshData(data: seq<Coin>, query: string): (v: View)
    ensures v.cryptoData == data
  {
    View(data, if query != "" then Filter(data, MatchesQuery(query)) else data)
  }

  /** A refresh shows exactly what the search effect would show for the new
      data. */
  lemma RefreshUsesSearchRule(data: seq<Coin>, query: string)
    ensures RefreshData(data, query).filteredData == SearchFilter(data, query)
  {
  }

  /** `fetchHistoricalData`'s timeframe to days. */
  function TimeframeDays(timeframe: string): (days: nat)
    ensures days == 1 || days == 7 || days == 30 || days == 365
  {
    if timeframe == "24h" then 1
    else if timeframe == "7d" then 7
    else if timeframe == "30d" then 30
    else 365
  }

  /** The three selectable timeframes map to their spans; anything else
      falls back to a year. */
  lemma TimeframeDaysSpec(timeframe: string)
    ensures TimeframeDays("24h") == 1 && TimeframeDays("7d") == 7 && TimeframeDays("30d") == 30
    ensures timeframe != "24h" && timeframe != "7d" && timeframe != "30d" ==>
              TimeframeDays(timeframe) == 365
  {
  }

  /** `filteredData.slice(0, 12)`. */
  function VisibleCards(filtered: seq<Coin>): (r: seq<Coin>)
    ensures |r| == if |filtered| < 12 then |filtered| else 12
    ensures forall k :: 0 <= k < |r| ==> r[k] == filtered[k]
  {
    if |filtered| < 12 then filtered else filtered[..12]
  }
}
