/** The member-area rows (coin balance, reward, redeemed reward) and the
    ordering of rewards by cost that several pages apply. Timestamps are
    integers (milliseconds). */
module Members {
  import opened Common

  /** The coin balance row of one account; the balance is kept non-negative. */
  datatype CoinBalance = CoinBalance(
    id: string,
    balance: nat,
    hasReceivedFirstLoginBonus: bool,
    createdAt: Option<int>,
    updatedAt: Option<int>)

  datatype RewardType = Discount | FreeProduct

  datatype Reward = Reward(
    id: string,
    name: string,
    description: Option<string>,
    cost: int,
    imageUrl: Option<string>,
    rewardType: RewardType,
    discountPercentage: Option<int>,
    productId: Option<int>,
    isActive: bool,
    createdAt: int,
    updatedAt: int)

  /** A redemption record, joined with the reward it redeemed when the query
      asked for it. */
  datatype UserReward = UserReward(
    id: string,
    userId: string,
    rewardId: string,
    redeemedAt: int,
    expiryDate: Option<int>,
    isUsed: bool,
    usedAt: Option<int>,
    reward: Option<Reward>)

  // ---------------------------------------------------------------------------
  // Sorting by cost. `sort((a, b) => a.cost - b.cost)` orders by ascending
  // cost and `sort((a, b) => b.cost - a.cost)` by descending cost; both are
  // stable. Descending by cost is ascending by the negated cost.

  function CostKey(r: Reward, descending: bool): int {
    if descending then -r.cost else r.cost
  }

  predicate SortedByCost(s: seq<Reward>, descending: bool) {
    forall i, j :: 0 <= i < j < |s| ==> CostKey(s[i], descending) <= CostKey(s[j], descending)
  }

  /** Inserts `x` before the first element whose key is not smaller. */
  function InsertByCost(x: Reward, s: seq<Reward>, descending: bool): (r: seq<Reward>)
    ensures multiset(r) == multiset(s) + multiset{x}
    ensures |r| == |s| + 1
  {
    if s == [] || CostKey(x, descending) <= CostKey(s[0], descending) then [x] + s
    else
      assert s == [s[0]] + s[1..];
      assert multiset(s) == multiset{s[0]} + multiset(s[1..]);
      [s[0]] + InsertByCost(x, s[1..], descending)
  }

  /** Inserting into a sorted list keeps it sorted; the new head is `x` or the
      old head. */
  lemma {:induction false} InsertByCostSorted(x: Reward, s: seq<Reward>, descending: bool)
    requires SortedByCost(s, descending)
    ensures SortedByCost(InsertByCost(x, s, descending), descending)
  {
    if s == [] || CostKey(x, descending) <= CostKey(s[0], descending) {
      SortedCons(x, s, descending);
    } else {
      SortedTail(s, descending);
      InsertByCostSorted(x, s[1..], descending);
      InsertByCostHead(x, s[1..], descending);
      SortedCons(s[0], InsertByCost(x, s[1..], descending), descending);
    }
  }

  /** The head after inserting is `x` or the old head. */
  lemma InsertByCostHead(x: Reward, s: seq<Reward>, descending: bool)
    ensures InsertByCost(x, s, descending)[0] == x || (|s| > 0 && InsertByCost(x, s, descending)[0] == s[0])
  {
  }

  lemma SortedTail(s: seq<Reward>, descending: bool)
    requires SortedByCost(s, descending) && s != []
    ensures SortedByCost(s[1..], descending)
    ensures |s| > 1 ==> CostKey(s[0], descending) <= CostKey(s[1], descending)
  {
  }

  /** An element no greater than the head of a sorted list can go in front. */
  lemma SortedCons(h: Reward, t: seq<Reward>, descending: bool)
    requires SortedByCost(t, descending)
    requires t == [] || CostKey(h, descending) <= CostKey(t[0], descending)
    ensures SortedByCost([h] + t, descending)
  {
    var r := [h] + t;
    forall i, j | 0 <= i < j < |r|
      ensures CostKey(r[i], descending) <= CostKey(r[j], descending)
    {
      if i == 0 && j > 1 {
        assert CostKey(t[0], descending) <= CostKey(t[j - 1], descending);
      }
    }
  }

  /** A stable insertion sort by cost. */
  function SortByCost(s: seq<Reward>, descending: bool): (r: seq<Reward>)
    ensures SortedByCost(r, descending)
    ensures multiset(r) == multiset(s)
    ensures |r| == |s|
  {
    if s == [] then []
    else
      assert s == [s[0]] + s[1..];
      assert multiset(s) == multiset(s[1..]) + multiset{s[0]};
      var rest := SortByCost(s[1..], descending);
      InsertByCostSorted(s[0], rest, descending);
      InsertByCost(s[0], rest, descending)
  }

  /** The first element of a non-empty sorted copy has the least key of all. */
  lemma SortedHeadIsLeast(s: seq<Reward>, descending: bool, x: Reward)
    requires x in s
    ensures |SortByCost(s, descending)| > 0
    ensures CostKey(SortByCost(s, descending)[0], descending) <= CostKey(x, descending)
    ensures SortByCost(s, descending)[0] in s
  {
    var r := SortByCost(s, descending);
    assert x in multiset(r);
    var k :| 0 <= k < |r| && r[k] == x;
    assert r[0] in multiset(r);
  }
}
