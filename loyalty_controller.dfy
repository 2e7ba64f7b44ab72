/**
 * The loyalty handlers of src/controllers/loyalty.controller.js.
 * `Loyalty.findOne({user})` is the `found` argument (null when the user has
 * no account); each handler works on the found account through the methods
 * of `LoyaltyModel.Loyalty`.
 */
module LoyaltyController {
  import opened Wrappers
  import opened Accounts
  import opened LoyaltyModel

  const Ok := 200
  const Invalid := 400
  const Forbidden := 403
  const NotFound := 404

  datatype DiscountType = Percentage | Fixed | FreeItem

  /** A reward as `getRewards` lists it. */
  datatype Reward = Reward(name: string, description: string, pointsRequired: nat,
                           discountType: DiscountType, discountValue: int)

  /** The catalogue `getRewards` shows. */
  const Catalogue: seq<Reward> := [
    Reward("Free Coffee", "Get a free coffee of your choice", 50, FreeItem, 0),
    Reward("$5 Off", "Get $5 off your next order", 100, Fixed, 5),
    Reward("10% Off", "Get 10% off your next order", 200, Percentage, 10),
    Reward("Free Delivery", "Free delivery on your next order", 75, Fixed, 0)
  ]

  /** The separate name-and-cost table `redeemReward` searches. */
  const RedeemTable: seq<(string, nat)> := [
    ("Free Coffee", 50), ("$5 Off", 100), ("10% Off", 200), ("Free Delivery", 75)
  ]

  /** `rewards.find(r => r.name === rewardName)`: the cost of the first reward of that name. */
  function CostOf(table: seq<(string, nat)>, name: string): (c: Option<nat>)
    ensures c.None? <==> forall i :: 0 <= i < |table| ==> table[i].0 != name
    ensures c.Some? ==> exists i :: 0 <= i < |table| && table[i] == (name, c.value)
  {
    if |table| == 0 then None
    else if table[0].0 == name then Some(table[0].1)
    else
      var c := CostOf(table[1..], name);
      assert forall i :: 1 <= i < |table| ==> table[i] == table[1..][i - 1];
      c
  }

  /** The two tables agree: a name is redeemable exactly when the catalogue lists it, at the listed cost. */
  lemma CatalogueMatchesRedeemTable(name: string)
    ensures CostOf(RedeemTable, name).Some? <==> exists i :: 0 <= i < |Catalogue| && Catalogue[i].name == name
    ensures forall i :: 0 <= i < |Catalogue| && Catalogue[i].name == name ==>
              CostOf(RedeemTable, name) == Some(Catalogue[i].pointsRequired)
  {
    assert forall i :: 0 <= i < 4 ==> RedeemTable[i] == (Catalogue[i].name, Catalogue[i].pointsRequired);
    if CostOf(RedeemTable, name).None? {
      assert forall i :: 0 <= i < |Catalogue| ==> Catalogue[i].name == RedeemTable[i].0;
    }
  }

  /** The four rewards and their costs. */
  lemma RedeemCosts()
    ensures CostOf(RedeemTable, "Free Coffee") == Some(50)
    ensures CostOf(RedeemTable, "$5 Off") == Some(100)
    ensures CostOf(RedeemTable, "10% Off") == Some(200)
    ensures CostOf(RedeemTable, "Free Delivery") == Some(75)
    ensures CostOf(RedeemTable, "Free Tea") == None
  {
  }

  // ---------------------------------------------------------------- handlers

  /** `getLoyaltyInfo`: the found account, or a new empty one that is saved. */
  method GetLoyaltyInfo(uid: Id, found: Loyalty?, now: int) returns (account: Loyalty)
    ensures found != null ==> account == found
    ensures found == null ==> fresh(account) && account.State() == LoyaltyState(uid, 0, Bronze, 0.0, [], now)
                              && account.Valid()
  {
    if found != null {
      account := found;
    } else {
      account := new Loyalty(uid, now);
      account.Save(now);
    }
  }

  /** `getRewards`: 404 without an account, otherwise the catalogue. */
  function GetRewards(found: bool): (r: (int, seq<Reward>))
    ensures !found ==> r == (NotFound, [])
    ensures found ==> r == (Ok, Catalogue)
  {
    if found then (Ok, Catalogue) else (NotFound, [])
  }

  /**
   * `redeemReward`: 404 without an account, 400 for an unknown reward or too
   * few points; otherwise the reward's cost is redeemed and the account saved.
   */
  method RedeemReward(found: Loyalty?, rewardName: string, now: int) returns (code: int)
    modifies found
    ensures found == null ==> code == NotFound
    ensures found != null && CostOf(RedeemTable, rewardName).None? ==> code == Invalid
    ensures code != Ok && found != null ==> unchanged(found)
    ensures found != null && CostOf(RedeemTable, rewardName).Some? ==>
              var cost := CostOf(RedeemTable, rewardName).value;
              (code == Ok <==> old(found.points) >= cost)
              && (code != Ok ==> code == Invalid)
              && (code == Ok ==>
                    found.State() == old(found.State()).(
                      points := old(found.points) - cost,
                      transactions := old(found.transactions)
                                      + [Transaction(Redeemed, -(cost as int), None, "Redeemed: " + rewardName, now)],
                      updatedAt := now))
    ensures code == Ok && old(found.Valid()) ==> found.Valid()
  {
    if found == null {
      return NotFound;
    }
    var cost := CostOf(RedeemTable, rewardName);
    if cost.None? {
      return Invalid;
    }
    if found.points < cost.value {
      return Invalid;
    }
    var ok := found.RedeemPoints(cost.value, "Redeemed: " + rewardName, now);
    found.Save(now);
    code := Ok;
  }

  /**
   * `processOrderPoints`: the found or a new account earns `floor(amount)`
   * points and adds `amount` to the total spent; the new balance and tier are
   * returned.
   */
  method ProcessOrderPoints(uid: Id, found: Loyalty?, orderId: Id, orderAmount: real, now: int)
    returns (account: Loyalty, pointsEarned: int, newTotal: int, newTier: Tier)
    modifies found
    ensures found != null ==> account == found
    ensures found == null ==> fresh(account)
    ensures pointsEarned == PointsFromOrder(orderAmount)
    ensures newTotal == account.points && newTier == account.tier
    ensures found != null ==>
              account.State() == old(found.State()).(
                points := old(found.points) + pointsEarned,
                totalSpent := old(found.totalSpent) + orderAmount,
                tier := TierFor(old(found.totalSpent) + orderAmount),
                transactions := old(found.transactions) + [Transaction(Earned, pointsEarned, Some(orderId),
                                                                       "Points earned from order #" + orderId, now)],
                updatedAt := now)
    ensures found == null ==>
              account.State() == LoyaltyState(uid, pointsEarned, TierFor(orderAmount), orderAmount,
                                               [Transaction(Earned, pointsEarned, Some(orderId),
                                                            "Points earned from order #" + orderId, now)], now)
    ensures orderAmount >= 0.0 && (found == null || old(found.Valid())) ==> account.Valid()
  {
    if found == null {
      account := new Loyalty(uid, now);
    } else {
      account := found;
    }
    pointsEarned := PointsFromOrder(orderAmount);
    account.AddPoints(pointsEarned, Some(orderId), "Points earned from order #" + orderId, now);
    account.UpdateSpending(orderAmount);
    account.Save(now);
    newTotal := account.points;
    newTier := account.tier;
  }

  /** `getLeaderboard`'s guard: anyone but an admin gets 403. */
  function LeaderboardCode(caller: RequestUser): (code: int)
    ensures code == Ok <==> caller.role == "admin"
    ensures code != Ok ==> code == Forbidden
  {
    if caller.role != "admin" then Forbidden else Ok
  }

  /** A first order of 1234.56 on a new account earns 1234 points and platinum. */
  lemma SampleFirstOrder()
    ensures PointsFromOrder(1234.56) == 1234 && TierFor(1234.56) == Platinum
  {
  }
}
