/**
 * The Loyalty document and its methods (src/models/Loyalty.js): a points
 * balance with a log of transactions, the amount spent, and the tier that
 * amount earns.  `addPoints` and `redeemPoints` each change the balance by
 * the points of the one transaction they log, so the log always sums to the
 * balance; `redeemPoints` refuses to go below zero.
 */
module LoyaltyModel {
  import opened Wrappers
  import JsValues

  type Id = string

  datatype Tier = Bronze | Silver | Gold | Platinum

  function TierName(t: Tier): string {
    match t
    case Bronze => "bronze"
    case Silver => "silver"
    case Gold => "gold"
    case Platinum => "platinum"
  }

  /** The order of the tiers. */
  function Rank(t: Tier): nat {
    match t
    case Bronze => 0
    case Silver => 1
    case Gold => 2
    case Platinum => 3
  }

  /** `calculateTier`'s if-chain: 1000 and more platinum, 500 gold, 200 silver, else bronze. */
  function TierFor(totalSpent: real): (t: Tier)
    ensures t == Platinum <==> totalSpent >= 1000.0
    ensures t == Gold <==> 500.0 <= totalSpent < 1000.0
    ensures t == Silver <==> 200.0 <= totalSpent < 500.0
    ensures t == Bronze <==> totalSpent < 200.0
  {
    if totalSpent >= 1000.0 then Platinum
    else if totalSpent >= 500.0 then Gold
    else if totalSpent >= 200.0 then Silver
    else Bronze
  }

  /** Spending more never lowers the tier. */
  lemma TierMonotone(a: real, b: real)
    requires a <= b
    ensures Rank(TierFor(a)) <= Rank(TierFor(b))
  {
  }

  /** `calculatePointsFromOrder`: one point per whole unit spent, `Math.floor`. */
  function PointsFromOrder(orderAmount: real): (p: int)
    ensures p as real <= orderAmount < p as real + 1.0
    ensures orderAmount >= 0.0 ==> p >= 0
  {
    JsValues.JsFloor(orderAmount)
  }

  datatype TxKind = Earned | Redeemed | Expired

  datatype Transaction = Transaction(kind: TxKind, points: int, orderId: Option<Id>,
                                     description: string, createdAt: int)

  /** The sum of the points of a log. */
  function Balance(txs: seq<Transaction>): int {
    if |txs| == 0 then 0 else Balance(txs[..|txs| - 1]) + txs[|txs| - 1].points
  }

  lemma {:induction false} BalanceAppend(a: seq<Transaction>, b: seq<Transaction>)
    ensures Balance(a + b) == Balance(a) + Balance(b)
    decreases |b|
  {
    if |b| == 0 {
      assert a + b == a;
    } else {
      assert (a + b)[..|a + b| - 1] == a + b[..|b| - 1];
      BalanceAppend(a, b[..|b| - 1]);
    }
  }

  /** Earned transactions add points; redeemed and expired ones take points off. */
  predicate SignsFollowKinds(txs: seq<Transaction>) {
    forall i :: 0 <= i < |txs| ==> if txs[i].kind == Earned then txs[i].points >= 0 else txs[i].points <= 0
  }

  /** The balance never exceeds what was earned. */
  lemma {:induction false} BalanceAtMostEarned(txs: seq<Transaction>)
    requires SignsFollowKinds(txs)
    ensures Balance(txs) <= Earnings(txs)
    decreases |txs|
  {
    if |txs| > 0 {
      BalanceAtMostEarned(txs[..|txs| - 1]);
    }
  }

  /** The points of the earned transactions of a log. */
  function Earnings(txs: seq<Transaction>): int {
    if |txs| == 0 then 0
    else Earnings(txs[..|txs| - 1]) + (if txs[|txs| - 1].kind == Earned then txs[|txs| - 1].points else 0)
  }

  datatype LoyaltyState = LoyaltyState(user: Id, points: int, tier: Tier, totalSpent: real,
                                       transactions: seq<Transaction>, updatedAt: int)

  class Loyalty {
    var user: Id
    var points: int
    var tier: Tier
    var totalSpent: real
    var transactions: seq<Transaction>
    var updatedAt: int

    function State(): LoyaltyState
      reads this
    {
      LoyaltyState(user, points, tier, totalSpent, transactions, updatedAt)
    }

    /** The ledger invariant: the log sums to the balance, which is never negative, and signs match kinds. */
    predicate Valid()
      reads this
    {
      Balance(transactions) == points && points >= 0 && SignsFollowKinds(transactions)
    }

    /** `new Loyalty({user})`: no points, bronze, nothing spent, an empty log. */
    constructor (user: Id, now: int)
      ensures State() == LoyaltyState(user, 0, Bronze, 0.0, [], now)
      ensures Valid()
    {
      this.user := user;
      points := 0;
      tier := Bronze;
      totalSpent := 0.0;
      transactions := [];
      updatedAt := now;
    }

    /** `calculateTier`: the tier of the amount spent, stored and returned. */
    method CalculateTier() returns (t: Tier)
      modifies this
      ensures t == TierFor(totalSpent)
      ensures State() == old(State()).(tier := t)
    {
      if totalSpent >= 1000.0 {
        t := Platinum;
      } else if totalSpent >= 500.0 {
        t := Gold;
      } else if totalSpent >= 200.0 {
        t := Silver;
      } else {
        t := Bronze;
      }
      tier := t;
    }

    /** `addPoints`: the balance grows by exactly `p` and one earned transaction of `p` is logged. */
    method AddPoints(p: int, orderId: Option<Id>, description: string, now: int)
      modifies this
      ensures State() == old(State()).(points := old(points) + p,
                                       transactions := old(transactions) + [Transaction(Earned, p, orderId, description, now)])
      ensures old(Valid()) && p >= 0 ==> Valid()
    {
      var tx := Transaction(Earned, p, orderId, description, now);
      BalanceAppend(transactions, [tx]);
      assert Balance([tx]) == p by { assert [tx][..0] == []; }
      points := points + p;
      transactions := transactions + [tx];
    }

    /**
     * `redeemPoints`: with fewer than `p` points it throws (`ok` false) and
     * nothing changes; otherwise the balance drops by `p` and one redeemed
     * transaction of `-p` is logged.
     */
    method RedeemPoints(p: int, description: string, now: int) returns (ok: bool)
      modifies this
      ensures ok <==> old(points) >= p
      ensures !ok ==> State() == old(State())
      ensures ok ==> State() == old(State()).(points := old(points) - p,
                                              transactions := old(transactions) + [Transaction(Redeemed, -p, None, description, now)])
      ensures old(Valid()) && p >= 0 ==> Valid()
    {
      if points < p {
        return false;
      }
      var tx := Transaction(Redeemed, -p, None, description, now);
      BalanceAppend(transactions, [tx]);
      assert Balance([tx]) == -p by { assert [tx][..0] == []; }
      points := points - p;
      transactions := transactions + [tx];
      ok := true;
    }

    /** `updateSpending`: the amount is added to the total spent and the tier follows it. */
    method UpdateSpending(amount: real)
      modifies this
      ensures State() == old(State()).(totalSpent := old(totalSpent) + amount,
                                       tier := TierFor(old(totalSpent) + amount))
    {
      totalSpent := totalSpent + amount;
      var _ := CalculateTier();
    }

    /** `loyalty.save()`: the pre-save hook stamps updatedAt. */
    method Save(now: int)
      modifies this
      ensures State() == old(State()).(updatedAt := now)
    {
      updatedAt := now;
    }
  }
}
