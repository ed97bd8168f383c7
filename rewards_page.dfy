/** The rewards page: which rewards the member can redeem, how far they are
    from the others, the status of redeemed rewards, and the redeem dialog. */
module RewardsPage {
  import opened Common
  import opened Members
  import opened RewardsContext

  /** `coins && coins.balance >= reward.cost`: equality is enough. */
  predicate CanRedeem(coins: Option<CoinBalance>, reward: Reward) {
    coins.Some? && coins.value.balance >= reward.cost
  }

  /** The N of "You need N more coins", shown only on a locked reward. A
      missing balance counts as 0. */
  function Shortfall(coins: Option<CoinBalance>, reward: Reward): (n: Option<int>)
    ensures n.Some? <==> !CanRedeem(coins, reward)
    ensures n.Some? ==> n.value == reward.cost - (if coins.Some? then coins.value.balance else 0)
    ensures n.Some? && coins.Some? ==> n.value > 0
  {
    if CanRedeem(coins, reward) then None
    else Some(reward.cost - (if coins.Some? then coins.value.balance as int else 0))
  }

  /** `[...rewards].sort((a, b) => a.cost - b.cost)`. */
  function SortedRewards(rewards: seq<Reward>): (sorted: seq<Reward>)
    ensures SortedByCost(sorted, false)
    ensures multiset(sorted) == multiset(rewards)
  {
    SortByCost(rewards, false)
  }

  /** On the sorted page the redeemable rewards come first: a reward the
      member can redeem is never listed after a locked one. */
  lemma RedeemableFirst(coins: Option<CoinBalance>, rewards: seq<Reward>, i: int, j: int)
    requires 0 <= i < j < |SortedRewards(rewards)|
    requires CanRedeem(coins, SortedRewards(rewards)[j])
    ensures CanRedeem(coins, SortedRewards(rewards)[i])
  {
    var sorted := SortedRewards(rewards);
    assert CostKey(sorted[i], false) <= CostKey(sorted[j], false);
  }

  // ---------------------------------------------------------------------------
  // Redeemed rewards

  /** `expiry_date && new Date(expiry_date) < new Date()`, with `now` the
      current time. */
  predicate IsExpired(userReward: UserReward, now: int) {
    userReward.expiryDate.Some? && userReward.expiryDate.value < now
  }

  datatype Status = Used | Expired | Active

  /** The badge: used wins over expired, expired over active. */
  function StatusOf(userReward: UserReward, now: int): (s: Status)
    ensures s == Used <==> userReward.isUsed
    ensures s == Expired <==> !userReward.isUsed && IsExpired(userReward, now)
    ensures s == Active <==> !userReward.isUsed && !IsExpired(userReward, now)
  {
    if userReward.isUsed then Used else if IsExpired(userReward, now) then Expired else Active
  }

  /** `disabled={isExpired || isUsed}`. */
  function UseDisabled(userReward: UserReward, now: int): (disabled: bool)
    ensures disabled <==> StatusOf(userReward, now) != Active
  {
    IsExpired(userReward, now) || userReward.isUsed
  }

  /** Once expired, a reward stays expired; with no expiry date it never is. */
  lemma ExpiryIsPermanent(userReward: UserReward, now: int, later: int)
    requires now <= later
    ensures IsExpired(userReward, now) ==> IsExpired(userReward, later)
    ensures userReward.expiryDate.None? ==> !IsExpired(userReward, later)
  {
  }

  // ---------------------------------------------------------------------------
  // The redeem dialog

  const UnexpectedErrorMessage: string := "An unexpected error occurred. Please try again."

  class RedeemDialog {
    var selectedReward: Option<Reward>
    var dialogOpen: bool
    var isRedeeming: bool
    var redeemSuccess: bool
    var redeemError: Option<string>
    var animatedCoinBalance: int

    constructor ()
      ensures selectedReward == None && !dialogOpen && !isRedeeming && !redeemSuccess
      ensures redeemError == None && animatedCoinBalance == 0
    {
      selectedReward := None;
      dialogOpen := false;
      isRedeeming := false;
      redeemSuccess := false;
      redeemError := None;
      animatedCoinBalance := 0;
    }

    /** The effect that shows the balance once the coins are known. */
    method CoinsChanged(coins: Option<CoinBalance>)
      modifies this
      ensures coins.Some? ==> animatedCoinBalance == coins.value.balance
      ensures coins.None? ==> animatedCoinBalance == old(animatedCoinBalance)
      ensures selectedReward == old(selectedReward) && dialogOpen == old(dialogOpen)
      ensures isRedeeming == old(isRedeeming) && redeemSuccess == old(redeemSuccess) && redeemError == old(redeemError)
    {
      if coins.Some? {
        animatedCoinBalance := coins.value.balance;
      }
    }

    /** `handleOpenRedeemDialog`: a fresh dialog for `reward`. */
    method OpenRedeemDialog(reward: Reward)
      modifies this
      ensures selectedReward == Some(reward) && dialogOpen && !redeemSuccess && redeemError == None
      ensures isRedeeming == old(isRedeeming) && animatedCoinBalance == old(animatedCoinBalance)
    {
      selectedReward := Some(reward);
      dialogOpen := true;
      redeemSuccess := false;
      redeemError := None;
    }

    /** `handleRedeemReward` up to its `await`: without a selected reward or a
        user nothing happens and no call is made; otherwise the dialog turns
        busy, clears its error, and asks to redeem the selected reward. */
    method BeginRedeem(user: Option<User>) returns (call: Option<Reward>)
      modifies this
      ensures selectedReward.None? || user.None? ==>
        call == None
        && isRedeeming == old(isRedeeming) && redeemError == old(redeemError)
      ensures selectedReward.Some? && user.Some? ==>
        call == selectedReward && isRedeeming && redeemError == None
      ensures selectedReward == old(selectedReward) && dialogOpen == old(dialogOpen)
      ensures redeemSuccess == old(redeemSuccess) && animatedCoinBalance == old(animatedCoinBalance)
    {
      if selectedReward.None? || user.None? {
        return None;
      }
      isRedeeming := true;
      redeemError := None;
      call := selectedReward;
    }

    /** `handleRedeemReward` after the call settles. `result` is `None` when
        the call threw; `coins` is the balance the handler captured and
        `balanceShown` whether the balance element is on screen. The busy flag
        is cleared on every path. On success the shown balance drops by the
        cost and the page refreshes the member's data and the rewards. */
    method FinishRedeem(reward: Reward, coins: Option<CoinBalance>, balanceShown: bool, result: Option<RedeemResponse>)
      returns (effects: seq<ContextEffect>)
      modifies this
      ensures !isRedeeming
      ensures result.Some? && result.value.success ==>
        redeemSuccess && redeemError == old(redeemError)
        && effects == [RefreshUserData, RefreshRewards]
        && (balanceShown && coins.Some? ==> animatedCoinBalance == coins.value.balance - reward.cost)
        && (!(balanceShown && coins.Some?) ==> animatedCoinBalance == old(animatedCoinBalance))
      ensures result.Some? && !result.value.success ==>
        redeemError == Some(result.value.message) && effects == []
        && redeemSuccess == old(redeemSuccess) && animatedCoinBalance == old(animatedCoinBalance)
      ensures result.None? ==>
        redeemError == Some(UnexpectedErrorMessage) && effects == []
        && redeemSuccess == old(redeemSuccess) && animatedCoinBalance == old(animatedCoinBalance)
      ensures selectedReward == old(selectedReward) && dialogOpen == old(dialogOpen)
    {
      effects := [];
      match result {
        case None =>
          redeemError := Some(UnexpectedErrorMessage);
        case Some(response) =>
          if response.success {
            redeemSuccess := true;
            if balanceShown && coins.Some? {
              var startBalance := coins.value.balance;
              var endBalance := startBalance - reward.cost;
              animatedCoinBalance := endBalance;
            }
            effects := [RefreshUserData, RefreshRewards];
          } else {
            redeemError := Some(response.message);
          }
      }
      isRedeeming := false;
    }
  }

  /** One redemption end to end: a member whose balance is exactly the cost
      may redeem (equal is enough); when the server accepts, the page shows a
      balance of 0 with no error. */
  method RedeemExactBalance(reward: Reward, user: User)
    returns (coins: Option<CoinBalance>, shown: int, success: bool, error: Option<string>)
    requires reward.cost >= 0
    ensures coins.Some? && coins.value.balance == reward.cost && CanRedeem(coins, reward)
    ensures shown == 0 && success && error == None
  {
    coins := Some(CoinBalance(user.id, reward.cost, true, None, None));
    assert CanRedeem(coins, reward);
    var dialog := new RedeemDialog();
    dialog.CoinsChanged(coins);
    dialog.OpenRedeemDialog(reward);
    var call := dialog.BeginRedeem(Some(user));
    var outcome := RedeemReward(Some(user), call.value.id, RpcData(Some(true)));
    var effects := dialog.FinishRedeem(call.value, coins, true, Some(outcome.response));
    shown := dialog.animatedCoinBalance;
    success := dialog.redeemSuccess;
    error := dialog.redeemError;
  }
}
