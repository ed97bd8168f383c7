/** The dashboard's "next reward" card: the cheapest reward the member cannot
    afford yet, with progress towards it, or, when every reward is
    affordable, the most expensive one at full progress. */
module Dashboard {
  import opened Common
  import opened Members
  import RewardsPage

  /** `rewards.filter(reward => reward.cost > coins.balance)`. */
  function StillToEarn(rewards: seq<Reward>, balance: int): (pending: seq<Reward>)
    ensures forall x :: x in pending <==> x in rewards && x.cost > balance
    ensures |pending| <= |rewards|
  {
    if rewards == [] then []
    else (if rewards[0].cost > balance then [rewards[0]] else []) + StillToEarn(rewards[1..], balance)
  }

  /** The pending rewards are exactly the ones the rewards page shows locked. */
  lemma StillToEarnIsLocked(coins: CoinBalance, rewards: seq<Reward>, x: Reward)
    requires x in rewards
    ensures x in StillToEarn(rewards, coins.balance) <==> !RewardsPage.CanRedeem(Some(coins), x)
  {
  }

  datatype NextReward = NextReward(name: string, cost: int, progress: real)

  /** The first of the sorted pending rewards is a reward of the list the
      member cannot afford. */
  lemma PendingHead(balance: int, rewards: seq<Reward>)
    requires |SortByCost(StillToEarn(rewards, balance), false)| > 0
    ensures var next := SortByCost(StillToEarn(rewards, balance), false)[0];
      next in rewards && next.cost > balance
  {
    var pending := SortByCost(StillToEarn(rewards, balance), false);
    assert pending[0] in multiset(pending);
  }

  /** The body of the effect once coins and a non-empty list are present. */
  function NextRewardFor(balance: nat, rewards: seq<Reward>): NextReward
    requires |rewards| > 0
  {
    var pending := SortByCost(StillToEarn(rewards, balance), false);
    if |pending| > 0 then
      var next := pending[0];
      PendingHead(balance, rewards);
      NextReward(next.name, next.cost, (balance as real / next.cost as real) * 100.0)
    else
      var mostExpensive := SortByCost(rewards, true)[0];
      NextReward(mostExpensive.name, mostExpensive.cost, 100.0)
  }

  lemma ProgressBelowFull(balance: nat, cost: int)
    requires balance < cost
    ensures 0.0 <= (balance as real / cost as real) * 100.0 < 100.0
  {
    var q := balance as real / cost as real;
    assert q * cost as real == balance as real;
    assert (1.0 - q) * cost as real == cost as real - balance as real;
  }

  /** When some reward costs more than the balance, the card shows one of
      least cost among those, with progress balance / cost * 100 below 100. */
  lemma NextRewardWhenPending(balance: nat, rewards: seq<Reward>, x: Reward)
    requires x in rewards && x.cost > balance
    ensures var n := NextRewardFor(balance, rewards);
      && (exists y :: y in rewards && y.cost > balance && y.name == n.name && y.cost == n.cost)
      && (forall y :: y in rewards && y.cost > balance ==> n.cost <= y.cost)
      && n.progress == (balance as real / n.cost as real) * 100.0
      && 0.0 <= n.progress < 100.0
  {
    var stillToEarn := StillToEarn(rewards, balance);
    var n := NextRewardFor(balance, rewards);
    SortedHeadIsLeast(stillToEarn, false, x);
    var next := SortByCost(stillToEarn, false)[0];
    assert next in rewards && next.cost > balance;
    forall y | y in rewards && y.cost > balance
      ensures n.cost <= y.cost
    {
      SortedHeadIsLeast(stillToEarn, false, y);
    }
    ProgressBelowFull(balance, n.cost);
  }

  /** When every reward is affordable, the card shows one of greatest cost at
      progress 100. */
  lemma NextRewardWhenAllAffordable(balance: nat, rewards: seq<Reward>)
    requires |rewards| > 0
    requires forall y :: y in rewards ==> y.cost <= balance
    ensures var n := NextRewardFor(balance, rewards);
      && (exists y :: y in rewards && y.name == n.name && y.cost == n.cost)
      && (forall y :: y in rewards ==> y.cost <= n.cost)
      && n.progress == 100.0
  {
    NothingPending(balance, rewards);
    var n := NextRewardFor(balance, rewards);
    assert n == NextReward(SortByCost(rewards, true)[0].name, SortByCost(rewards, true)[0].cost, 100.0);
    SortedHeadIsLeast(rewards, true, rewards[0]);
    forall y | y in rewards
      ensures y.cost <= n.cost
    {
      SortedHeadIsLeast(rewards, true, y);
    }
  }

  lemma NothingPending(balance: int, rewards: seq<Reward>)
    requires forall y :: y in rewards ==> y.cost <= balance
    ensures StillToEarn(rewards, balance) == []
    ensures SortByCost(StillToEarn(rewards, balance), false) == []
  {
  }

  class DashboardState {
    var nextReward: Option<NextReward>

    constructor ()
      ensures nextReward == None
    {
      nextReward := None;
    }

    /** The effect at lines 110-136. `rewards` is the array the rewards store
        shares with the other pages: in the all-affordable case it is sorted
        by descending cost in place. */
    method RecomputeNextReward(coins: Option<CoinBalance>, rewards: array<Reward>)
      modifies this, rewards
      ensures coins.None? || rewards.Length == 0 ==>
        nextReward == old(nextReward) && rewards[..] == old(rewards[..])
      ensures coins.Some? && rewards.Length > 0 ==>
        nextReward == Some(NextRewardFor(coins.value.balance, old(rewards[..])))
      ensures coins.Some? && rewards.Length > 0 && |StillToEarn(old(rewards[..]), coins.value.balance)| > 0 ==>
        rewards[..] == old(rewards[..])
      ensures coins.Some? && rewards.Length > 0 && |StillToEarn(old(rewards[..]), coins.value.balance)| == 0 ==>
        rewards[..] == SortByCost(old(rewards[..]), true)
    {
      if coins.None? || rewards.Length == 0 {
        return;
      }
      var balance := coins.value.balance;
      var current := rewards[..];
      var availableRewards := SortByCost(StillToEarn(current, balance), false);
      if |availableRewards| > 0 {
        nextReward := Some(NextRewardFor(balance, current));
      } else {
        SortByCostDescendingInPlace(rewards);
        var mostExpensive := rewards[0];
        nextReward := Some(NextReward(mostExpensive.name, mostExpensive.cost, 100.0));
      }
    }
  }

  /** `rewards.sort((a, b) => b.cost - a.cost)` on the array itself. */
  method SortByCostDescendingInPlace(rewards: array<Reward>)
    modifies rewards
    ensures rewards[..] == SortByCost(old(rewards[..]), true)
  {
    var sorted := SortByCost(rewards[..], true);
    forall i | 0 <= i < rewards.Length {
      rewards[i] := sorted[i];
    }
    assert rewards[..] == sorted;
  }
}
