/** The price-alert panel: a list of alerts, each a two-state latch
    (armed, triggered), evaluated against every new market snapshot. */
module PriceAlerts {
  import opened Collections
  import opened Market

  datatype Condition = Above | Below

  /** A stored alert (the image URL is left out). */
  datatype PriceAlert = PriceAlert(id: string, coin: string, symbol: string, condition: Condition,
                                   price: real, createdAt: string, triggered: bool)

  /** `isTriggered`: the alert's condition holds at `currentPrice`. */
  predicate ConditionHolds(a: PriceAlert, currentPrice: real) {
    (a.condition == Above && currentPrice >= a.price) ||
    (a.condition == Below && currentPrice <= a.price)
  }

  /** The alert flips on this pass: its coin is in the snapshot, its
      condition holds at the coin's price, and it is not yet triggered. */
  predicate Flips(a: PriceAlert, coins: seq<Coin>) {
    match FindCoin(coins, a.coin)
    case None => false
    case Some(c) => ConditionHolds(a, c.currentPrice) && !a.triggered
  }

  /** `updatedAlerts[index]` after the pass. */
  function Evaluate(a: PriceAlert, coins: seq<Coin>): PriceAlert {
    if Flips(a, coins) then a.(triggered := true) else a
  }

  /** `updatedAlerts` after the pass. */
  function EvaluateAll(alerts: seq<PriceAlert>, coins: seq<Coin>): seq<PriceAlert> {
    seq(|alerts|, k requires 0 <= k < |alerts| => Evaluate(alerts[k], coins))
  }

  /** `newTriggeredAlerts`: the alerts that flip, in list order, as they
      were before the pass (with `triggered` still false). */
  function NewlyTriggered(alerts: seq<PriceAlert>, coins: seq<Coin>): seq<PriceAlert> {
    Filter(alerts, FlipsAt(coins))
  }

  function FlipsAt(coins: seq<Coin>): PriceAlert -> bool {
    (a: PriceAlert) => Flips(a, coins)
  }

  /** The pass is a latch: it changes nothing but `triggered`, sets it
      exactly on the alerts that flip, never clears it, and leaves alerts
      whose coin is missing from the snapshot untouched. */
  lemma PassIsLatch(alerts: seq<PriceAlert>, coins: seq<Coin>)
    ensures |EvaluateAll(alerts, coins)| == |alerts|
    ensures forall k :: 0 <= k < |alerts| ==>
              EvaluateAll(alerts, coins)[k] == alerts[k].(triggered := EvaluateAll(alerts, coins)[k].triggered)
    ensures forall k :: 0 <= k < |alerts| ==>
              (EvaluateAll(alerts, coins)[k].triggered <==>
               alerts[k].triggered || (FindCoin(coins, alerts[k].coin).Some? &&
                                       ConditionHolds(alerts[k], FindCoin(coins, alerts[k].coin).value.currentPrice)))
    ensures forall k :: 0 <= k < |alerts| && FindCoin(coins, alerts[k].coin).None? ==>
              EvaluateAll(alerts, coins)[k] == alerts[k]
  {
  }

  /** A pass over an empty snapshot changes nothing and reports nothing. */
  lemma EmptySnapshotIsNoop(alerts: seq<PriceAlert>)
    ensures EvaluateAll(alerts, []) == alerts
    ensures NewlyTriggered(alerts, []) == []
  {
    assert forall k :: 0 <= k < |alerts| ==> !Flips(alerts[k], []);
    NoneKeptIsEmpty(alerts, []);
  }

  lemma {:induction false} NoneKeptIsEmpty(alerts: seq<PriceAlert>, coins: seq<Coin>)
    requires forall k :: 0 <= k < |alerts| ==> !Flips(alerts[k], coins)
    ensures NewlyTriggered(alerts, coins) == []
    decreases |alerts|
  {
    if alerts != [] {
      NoneKeptIsEmpty(alerts[1..], coins);
    }
  }

  /** A pass that reports nothing changes nothing. */
  lemma QuietPassChangesNothing(alerts: seq<PriceAlert>, coins: seq<Coin>)
    requires NewlyTriggered(alerts, coins) == []
    ensures EvaluateAll(alerts, coins) == alerts
  {
    FilterSpec(alerts, FlipsAt(coins));
    forall k | 0 <= k < |alerts| ensures !Flips(alerts[k], coins) {
      assert FlipsAt(coins)(alerts[k]) == Flips(alerts[k], coins);
      assert alerts[k] !in NewlyTriggered(alerts, coins);
    }
  }

  /** The reported alerts are exactly the alerts that flip: each was
      untriggered, had its coin in the snapshot and its condition held. */
  lemma ReportsExactlyTheFlips(alerts: seq<PriceAlert>, coins: seq<Coin>)
    ensures forall k :: 0 <= k < |alerts| && Flips(alerts[k], coins) ==> alerts[k] in NewlyTriggered(alerts, coins)
    ensures forall x :: x in NewlyTriggered(alerts, coins) ==>
              x in alerts && !x.triggered && FindCoin(coins, x.coin).Some? &&
              ConditionHolds(x, FindCoin(coins, x.coin).value.currentPrice)
  {
    var r := NewlyTriggered(alerts, coins);
    FilterSpec(alerts, FlipsAt(coins));
    forall x | x in r
      ensures x in alerts && Flips(x, coins)
    {
      var k :| 0 <= k < |r| && r[k] == x;
      assert FlipsAt(coins)(r[k]);
    }
    forall k | 0 <= k < |alerts| && Flips(alerts[k], coins)
      ensures alerts[k] in r
    {
      assert FlipsAt(coins)(alerts[k]);
    }
  }

  /** Idempotence: a second pass at the same prices changes nothing and
      reports nothing. */
  lemma {:induction false} SecondPassIsQuiet(alerts: seq<PriceAlert>, coins: seq<Coin>)
    ensures EvaluateAll(EvaluateAll(alerts, coins), coins) == EvaluateAll(alerts, coins)
    ensures NewlyTriggered(EvaluateAll(alerts, coins), coins) == []
  {
    var once := EvaluateAll(alerts, coins);
    forall k | 0 <= k < |once|
      ensures !Flips(once[k], coins)
    {
      assert once[k].coin == alerts[k].coin && once[k].condition == alerts[k].condition;
    }
    NoneKeptIsEmpty(once, coins);
  }

  /** `isClose`: an alert whose condition does not hold yet, with the price
      less than 5% of the target away. */
  function IsClose(a: PriceAlert, currentPrice: real): (r: bool)
    ensures r <==> !ConditionHolds(a, currentPrice) &&
                   currentPrice - a.price < a.price * 0.05 && a.price - currentPrice < a.price * 0.05
  {
    (a.condition == Above && currentPrice < a.price && a.price - currentPrice < a.price * 0.05) ||
    (a.condition == Below && currentPrice > a.price && currentPrice - a.price < a.price * 0.05)
  }

  /** `coinOptions`: the coins the user holds, or every coin when the user
      holds none. */
  function CoinOptions(coins: seq<Coin>, holdingCoins: seq<string>): (r: seq<Coin>)
    ensures |holdingCoins| == 0 ==> r == coins
    ensures |holdingCoins| > 0 ==> r == Filter(coins, HeldIn(holdingCoins))
    ensures forall k :: 0 <= k < |r| ==> r[k] in coins && (|holdingCoins| > 0 ==> r[k].id in holdingCoins)
    ensures forall k :: 0 <= k < |coins| && (|holdingCoins| == 0 || coins[k].id in holdingCoins) ==> coins[k] in r
  {
    if |holdingCoins| > 0 then
      FilterSpec(coins, HeldIn(holdingCoins));
      Filter(coins, HeldIn(holdingCoins))
    else coins
  }

  function HeldIn(holdingCoins: seq<string>): Coin -> bool {
    (c: Coin) => c.id in holdingCoins
  }

  // ---------------------------------------------------------------------
  // Several passes: the latch fires at most once per alert
  // ---------------------------------------------------------------------

  /** The alert list after one pass per snapshot, in order. */
  function Run(alerts: seq<PriceAlert>, snapshots: seq<seq<Coin>>): seq<PriceAlert>
    decreases |snapshots|
  {
    if snapshots == [] then alerts else Run(EvaluateAll(alerts, snapshots[0]), snapshots[1..])
  }

  /** How many of the passes report the alert at position `k`. */
  function Reports(alerts: seq<PriceAlert>, snapshots: seq<seq<Coin>>, k: nat): nat
    requires k < |alerts|
    decreases |snapshots|
  {
    if snapshots == [] then 0
    else (if Flips(alerts[k], snapshots[0]) then 1 else 0) +
         Reports(EvaluateAll(alerts, snapshots[0]), snapshots[1..], k)
  }

  /** Over any sequence of snapshots an alert is reported at most once, an
      alert that starts triggered is never reported, and once triggered an
      alert stays triggered. */
  lemma {:induction false} ReportedAtMostOnce(alerts: seq<PriceAlert>, snapshots: seq<seq<Coin>>, k: nat)
    requires k < |alerts|
    ensures Reports(alerts, snapshots, k) <= 1
    ensures alerts[k].triggered ==> Reports(alerts, snapshots, k) == 0
    ensures |Run(alerts, snapshots)| == |alerts|
    ensures alerts[k].triggered ==> Run(alerts, snapshots)[k].triggered
    ensures Reports(alerts, snapshots, k) == 1 ==> Run(alerts, snapshots)[k].triggered
    decreases |snapshots|
  {
    if snapshots != [] {
      var next := EvaluateAll(alerts, snapshots[0]);
      ReportedAtMostOnce(next, snapshots[1..], k);
      assert Flips(alerts[k], snapshots[0]) ==> next[k].triggered;
    }
  }

  function AlertOnly(price: real): seq<Coin> {
    [Coin("bitcoin", "btc", "Bitcoin", price, 0.0, 0.0, 0.0)]
  }

  /** An "above 100" alert watched over prices 90, 105, 95, 110 is reported
      once, on the second pass, and is still triggered at the end. */
  lemma AboveHundredScenario(id: string, createdAt: string)
    ensures var a := [PriceAlert(id, "bitcoin", "btc", Above, 100.0, createdAt, false)];
      var snaps := [AlertOnly(90.0), AlertOnly(105.0), AlertOnly(95.0), AlertOnly(110.0)];
      NewlyTriggered(a, snaps[0]) == [] &&
      NewlyTriggered(Run(a, snaps[..1]), snaps[1]) == a &&
      Reports(a, snaps, 0) == 1 && Run(a, snaps)[0].triggered
  {
    var a := [PriceAlert(id, "bitcoin", "btc", Above, 100.0, createdAt, false)];
    var snaps := [AlertOnly(90.0), AlertOnly(105.0), AlertOnly(95.0), AlertOnly(110.0)];
    var fired := a[0].(triggered := true);
    assert FindCoin(snaps[0], "bitcoin") == Some(snaps[0][0]);
    assert FindCoin(snaps[1], "bitcoin") == Some(snaps[1][0]);
    assert !Flips(a[0], snaps[0]);
    NoneKeptIsEmpty(a, snaps[0]);
    assert EvaluateAll(a, snaps[0]) == a;
    assert Run(a, snaps[..1]) == a by {
      assert snaps[..1][1..] == [];
    }
    assert Flips(a[0], snaps[1]);
    assert NewlyTriggered(a, snaps[1]) == a;
    assert EvaluateAll(a, snaps[1]) == [fired];
    ReportedAtMostOnce([fired], snaps[2..], 0);
    assert snaps[1..][1..] == snaps[2..];
    assert Reports(a, snaps, 0) == 0 + Reports(a, snaps[1..], 0);
    assert Reports(a, snaps[1..], 0) == 1 + Reports([fired], snaps[2..], 0);
    assert Run(a, snaps) == Run(a, snaps[1..]);
    assert Run(a, snaps[1..]) == Run([fired], snaps[2..]);
  }

  lemma NewlyTriggeredStep(alerts: seq<PriceAlert>, coins: seq<Coin>, i: nat)
    requires i < |alerts|
    ensures NewlyTriggered(alerts[..i + 1], coins) ==
            NewlyTriggered(alerts[..i], coins) + (if Flips(alerts[i], coins) then [alerts[i]] else [])
  {
    assert alerts[..i + 1] == alerts[..i] + [alerts[i]];
    FilterConcat(alerts[..i], [alerts[i]], (a: PriceAlert) => Flips(a, coins));
    assert [alerts[i]][1..] == [];
  }

  /** The loop of the evaluation effect: one pass over `alerts`, building
      the updated list, the newly triggered alerts and whether anything
      changed. */
  method EvaluatePass(alerts: seq<PriceAlert>, coins: seq<Coin>)
    returns (updatedAlerts: seq<PriceAlert>, newly: seq<PriceAlert>, alertsUpdated: bool)
    ensures updatedAlerts == EvaluateAll(alerts, coins)
    ensures newly == NewlyTriggered(alerts, coins)
    ensures alertsUpdated <==> newly != []
  {
    updatedAlerts := alerts;
    alertsUpdated := false;
    newly := [];
    for i := 0 to |alerts|
      invariant |updatedAlerts| == |alerts|
      invariant forall k :: 0 <= k < i ==> updatedAlerts[k] == Evaluate(alerts[k], coins)
      invariant forall k :: i <= k < |alerts| ==> updatedAlerts[k] == alerts[k]
      invariant newly == NewlyTriggered(alerts[..i], coins)
      invariant alertsUpdated <==> newly != []
    {
      var alert := alerts[i];
      NewlyTriggeredStep(alerts, coins, i);
      var coin := FindCoin(coins, alert.coin);
      if coin.Some? {
        var currentPrice := coin.value.currentPrice;
        var isTriggered := (alert.condition == Above && currentPrice >= alert.price) ||
                           (alert.condition == Below && currentPrice <= alert.price);
        if isTriggered && !alert.triggered {
          updatedAlerts := updatedAlerts[i := alert.(triggered := true)];
          alertsUpdated := true;
          newly := newly + [alert];
        }
      }
    }
    assert alerts[..|alerts|] == alerts;
  }

  // ---------------------------------------------------------------------
  // The component's state
  // ---------------------------------------------------------------------

  function IdIsNot(id: string): PriceAlert -> bool {
    (a: PriceAlert) => a.id != id
  }

  class AlertBook {
    var alerts: seq<PriceAlert>
    var triggeredAlerts: seq<PriceAlert>
    /** The "Create Price Alert" dialog's fields. */
    var selectedCoin: string
    var alertPrice: string
    var alertCondition: Condition

    constructor ()
      ensures alerts == [] && triggeredAlerts == []
      ensures selectedCoin == "" && alertPrice == "" && alertCondition == Above
    {
      alerts := [];
      triggeredAlerts := [];
      selectedCoin := "";
      alertPrice := "";
      alertCondition := Above;
    }

    /** The effect run whenever the snapshot or the alerts change; returns
        the alerts it notifies about. */
    method CheckAlerts(coins: seq<Coin>) returns (newly: seq<PriceAlert>)
      modifies this
      ensures alerts == EvaluateAll(old(alerts), coins)
      ensures newly == NewlyTriggered(old(alerts), coins)
      ensures triggeredAlerts == old(triggeredAlerts) + newly
      ensures |old(alerts)| == 0 || |coins| == 0 ==> alerts == old(alerts) && newly == []
      ensures selectedCoin == old(selectedCoin) && alertPrice == old(alertPrice) &&
              alertCondition == old(alertCondition)
    {
      if |alerts| == 0 || |coins| == 0 {
        newly := [];
        EmptySnapshotIsNoop(alerts);
        assert EvaluateAll([], coins) == [];
        return;
      }
      var updatedAlerts, alertsUpdated;
      updatedAlerts, newly, alertsUpdated := EvaluatePass(alerts, coins);
      if alertsUpdated {
        alerts := updatedAlerts;
      } else {
        QuietPassChangesNothing(alerts, coins);
      }
      if |newly| > 0 {
        triggeredAlerts := triggeredAlerts + newly;
      }
    }

    /** `handleAddAlert`: `parsedPrice` is `Number.parseFloat(alertPrice)`,
        `None` standing for NaN; `id` and `createdAt` come from the clock. */
    method AddAlert(coins: seq<Coin>, parsedPrice: Option<real>, id: string, createdAt: string)
      returns (added: bool)
      modifies this
      ensures added <==> old(selectedCoin) != "" && old(alertPrice) != "" &&
                         FindCoin(coins, old(selectedCoin)).Some? &&
                         parsedPrice.Some? && parsedPrice.value > 0.0
      ensures added ==>
                alerts == old(alerts) + [PriceAlert(id, old(selectedCoin), FindCoin(coins, old(selectedCoin)).value.symbol,
                                                    old(alertCondition), parsedPrice.value, createdAt, false)] &&
                selectedCoin == "" && alertPrice == "" && alertCondition == Above
      ensures !added ==> alerts == old(alerts) && selectedCoin == old(selectedCoin) &&
                         alertPrice == old(alertPrice) && alertCondition == old(alertCondition)
      ensures triggeredAlerts == old(triggeredAlerts)
    {
      added := false;
      if selectedCoin == "" || alertPrice == "" {
        return;
      }
      var coin := FindCoin(coins, selectedCoin);
      if coin.None? {
        return;
      }
      if parsedPrice.None? || parsedPrice.value <= 0.0 {
        return;
      }
      var newAlert := PriceAlert(id, selectedCoin, coin.value.symbol, alertCondition,
                                 parsedPrice.value, createdAt, false);
      alerts := alerts + [newAlert];
      ResetForm();
      added := true;
    }

    method ResetForm()
      modifies this
      ensures selectedCoin == "" && alertPrice == "" && alertCondition == Above
      ensures alerts == old(alerts) && triggeredAlerts == old(triggeredAlerts)
    {
      selectedCoin := "";
      alertPrice := "";
      alertCondition := Above;
    }

    /** `handleDeleteAlert`: drop every alert with this id, keeping the
        order of the rest. */
    method DeleteAlert(id: string)
      modifies this`alerts
      ensures alerts == Filter(old(alerts), IdIsNot(id))
      ensures forall k :: 0 <= k < |alerts| ==> alerts[k].id != id && alerts[k] in old(alerts)
      ensures forall k :: 0 <= k < |old(alerts)| && old(alerts)[k].id != id ==> old(alerts)[k] in alerts
    {
      FilterSpec(alerts, IdIsNot(id));
      alerts := Filter(alerts, IdIsNot(id));
    }

    /** `handleResetAlert`: re-arm the alerts with this id and drop them
        from the triggered list; nothing else changes. */
    method ResetAlert(id: string)
      modifies this`alerts, this`triggeredAlerts
      ensures |alerts| == |old(alerts)|
      ensures forall k :: 0 <= k < |alerts| ==>
                alerts[k] == if old(alerts)[k].id == id then old(alerts)[k].(triggered := false) else old(alerts)[k]
      ensures triggeredAlerts == Filter(old(triggeredAlerts), IdIsNot(id))
      ensures forall k :: 0 <= k < |triggeredAlerts| ==> triggeredAlerts[k].id != id
    {
      var current := alerts;
      alerts := seq(|current|, k requires 0 <= k < |current| =>
                      if current[k].id == id then current[k].(triggered := false) else current[k]);
      FilterSpec(triggeredAlerts, IdIsNot(id));
      triggeredAlerts := Filter(triggeredAlerts, IdIsNot(id));
    }
  }
}
