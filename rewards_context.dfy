/** The rewards store shared by the member pages: the active rewards, the
    signed-in member's redeemed rewards, and the redemption call. The database
    and the server-side `redeem_reward` procedure are outside the model: what
    they answer is a parameter. */
module RewardsContext {
  import opened Common
  import opened Members

  datatype User = User(id: string)

  /** What the `redeem_reward` remote call can come back with: an error
      object, a data value (`true`, `false` or `null`), or an exception. */
  datatype RpcReply = RpcError(message: string) | RpcData(data: Option<bool>) | RpcThrew

  /** What a table query can come back with. */
  datatype QueryReply<T> = QueryError(message: string) | QueryData(data: Option<T>) | QueryThrew

  datatype RedeemResponse = RedeemResponse(success: bool, message: string, newBalance: Option<int>)

  /** The calls `redeemReward` makes, in order. */
  datatype ContextEffect = CallRedeemRpc(userId: string, rewardId: string) | RefreshUserData | RefreshRewards

  datatype RedeemOutcome = RedeemOutcome(response: RedeemResponse, effects: seq<ContextEffect>)

  const LoginRequiredMessage: string := "You must be logged in to redeem rewards"
  const FailedMessage: string := "Failed to redeem reward"
  const RedeemedMessage: string := "Reward redeemed successfully!"
  const NotEnoughCoinsMessage: string := "Not enough coins to redeem this reward"
  const RedeemErrorMessage: string := "An error occurred while redeeming the reward"

  /** `redeemReward`: maps the call's reply to the response the pages see. */
  function RedeemReward(user: Option<User>, rewardId: string, reply: RpcReply): (r: RedeemOutcome)
    ensures r.response.success <==> user.Some? && reply == RpcData(Some(true))
    ensures r.response.newBalance == None
    ensures user.None? ==> r.effects == [] && r.response.message == LoginRequiredMessage
    ensures user.Some? ==> |r.effects| > 0 && r.effects[0] == CallRedeemRpc(user.value.id, rewardId)
    ensures r.response.success ==>
      r.effects == [CallRedeemRpc(user.value.id, rewardId), RefreshUserData, RefreshRewards]
      && r.response.message == RedeemedMessage
    ensures user.Some? && !r.response.success ==> r.effects == [CallRedeemRpc(user.value.id, rewardId)]
    ensures user.Some? && reply.RpcError? ==>
      r.response.message == (if reply.message == "" then FailedMessage else reply.message)
    ensures user.Some? && reply.RpcData? && reply.data != Some(true) ==> r.response.message == NotEnoughCoinsMessage
    ensures user.Some? && reply.RpcThrew? ==> r.response.message == RedeemErrorMessage
  {
    match user
    case None => RedeemOutcome(RedeemResponse(false, LoginRequiredMessage, None), [])
    case Some(u) =>
      var call := [CallRedeemRpc(u.id, rewardId)];
      match reply
      case RpcError(message) =>
        RedeemOutcome(RedeemResponse(false, if message == "" then FailedMessage else message, None), call)
      case RpcData(data) =>
        if data == Some(true) then
          RedeemOutcome(RedeemResponse(true, RedeemedMessage, None), call + [RefreshUserData, RefreshRewards])
        else
          RedeemOutcome(RedeemResponse(false, NotEnoughCoinsMessage, None), call)
      case RpcThrew =>
        RedeemOutcome(RedeemResponse(false, RedeemErrorMessage, None), call)
  }

  /** A failed redemption always explains itself: its message is never empty. */
  lemma FailureHasMessage(user: Option<User>, rewardId: string, reply: RpcReply)
    ensures RedeemReward(user, rewardId, reply).response.message != ""
  {
  }

  // ---------------------------------------------------------------------------
  // What the rewards query asks the database for

  /** The rows of `table` with `is_active = true`, in table order. */
  function ActiveRows(table: seq<Reward>): (rows: seq<Reward>)
    ensures forall i :: 0 <= i < |rows| ==> rows[i].isActive
    ensures forall x :: multiset(rows)[x] == if x.isActive then multiset(table)[x] else 0
    ensures |rows| <= |table|
  {
    if table == [] then []
    else
      assert table == [table[0]] + table[1..];
      (if table[0].isActive then [table[0]] else []) + ActiveRows(table[1..])
  }

  /** `.eq('is_active', true).order('cost', { ascending: true })`: an answer
      holds exactly the active rows, by non-decreasing cost; the order among
      rows of equal cost is the database's. */
  predicate AnswersActiveByCost(table: seq<Reward>, data: seq<Reward>) {
    multiset(data) == multiset(ActiveRows(table)) && SortedByCost(data, false)
  }

  /** Such an answer exists: the active rows sorted by cost. */
  lemma ActiveByCostAnswer(table: seq<Reward>)
    ensures AnswersActiveByCost(table, SortByCost(ActiveRows(table), false))
  {
  }

  /** Every reward in an answer is active and comes from the table. */
  lemma {:induction false} AnswerRowsAreActive(table: seq<Reward>, data: seq<Reward>, x: Reward)
    requires AnswersActiveByCost(table, data)
    requires x in data
    ensures x.isActive && x in table
  {
    assert multiset(data)[x] > 0;
    assert multiset(ActiveRows(table))[x] > 0;
    assert x in multiset(table);
  }

  // ---------------------------------------------------------------------------
  // The store

  class RewardsStore {
    var rewards: seq<Reward>
    var userRewards: seq<UserReward>
    var loadingRewards: bool

    constructor ()
      ensures rewards == [] && userRewards == [] && loadingRewards
    {
      rewards := [];
      userRewards := [];
      loadingRewards := true;
    }

    /** `fetchAvailableRewards` up to its `await`. */
    method BeginFetchAvailableRewards()
      modifies this
      ensures loadingRewards
      ensures rewards == old(rewards) && userRewards == old(userRewards)
    {
      loadingRewards := true;
    }

    /** `fetchAvailableRewards` after its query settles: an error or an
        exception keeps the list, a null answer empties it, and the loading
        flag is cleared on every path. */
    method SettleFetchAvailableRewards(reply: QueryReply<seq<Reward>>)
      modifies this
      ensures !loadingRewards
      ensures userRewards == old(userRewards)
      ensures reply.QueryData? && reply.data.Some? ==> rewards == reply.data.value
      ensures reply == QueryData(None) ==> rewards == []
      ensures !reply.QueryData? ==> rewards == old(rewards)
    {
      match reply {
        case QueryError(_) =>
        case QueryData(data) =>
          rewards := if data.Some? then data.value else [];
        case QueryThrew =>
      }
      loadingRewards := false;
    }

    method FetchAvailableRewards(reply: QueryReply<seq<Reward>>)
      modifies this
      ensures !loadingRewards
      ensures userRewards == old(userRewards)
      ensures reply.QueryData? && reply.data.Some? ==> rewards == reply.data.value
      ensures reply == QueryData(None) ==> rewards == []
      ensures !reply.QueryData? ==> rewards == old(rewards)
    {
      BeginFetchAvailableRewards();
      SettleFetchAvailableRewards(reply);
    }

    /** `fetchUserRewards`: nothing without a user; otherwise as the rewards
        fetch, on `userRewards`, with no loading flag. */
    method FetchUserRewards(user: Option<User>, reply: QueryReply<seq<UserReward>>)
      modifies this
      ensures rewards == old(rewards) && loadingRewards == old(loadingRewards)
      ensures user.Some? && reply.QueryData? && reply.data.Some? ==> userRewards == reply.data.value
      ensures user.Some? && reply == QueryData(None) ==> userRewards == []
      ensures user.None? || !reply.QueryData? ==> userRewards == old(userRewards)
    {
      if user.None? {
        return;
      }
      match reply {
        case QueryError(_) =>
        case QueryData(data) =>
          userRewards := if data.Some? then data.value else [];
        case QueryThrew =>
      }
    }

    /** `refreshRewards`: both fetches, one after the other. */
    method RefreshRewards(user: Option<User>, available: QueryReply<seq<Reward>>, redeemed: QueryReply<seq<UserReward>>)
      modifies this
      ensures !loadingRewards
      ensures available.QueryData? && available.data.Some? ==> rewards == available.data.value
      ensures available == QueryData(None) ==> rewards == []
      ensures !available.QueryData? ==> rewards == old(rewards)
      ensures user.Some? && redeemed.QueryData? && redeemed.data.Some? ==> userRewards == redeemed.data.value
      ensures user.Some? && redeemed == QueryData(None) ==> userRewards == []
      ensures user.None? || !redeemed.QueryData? ==> userRewards == old(userRewards)
    {
      FetchAvailableRewards(available);
      FetchUserRewards(user, redeemed);
    }

    /** The effect run whenever the signed-in user changes. Signed out, the
        redeemed list is cleared and only the available rewards are fetched. */
    method UserChanged(user: Option<User>, available: QueryReply<seq<Reward>>, redeemed: QueryReply<seq<UserReward>>)
      modifies this
      ensures !loadingRewards
      ensures available.QueryData? && available.data.Some? ==> rewards == available.data.value
      ensures available == QueryData(None) ==> rewards == []
      ensures !available.QueryData? ==> rewards == old(rewards)
      ensures user.None? ==> userRewards == []
      ensures user.Some? && redeemed.QueryData? && redeemed.data.Some? ==> userRewards == redeemed.data.value
      ensures user.Some? && redeemed == QueryData(None) ==> userRewards == []
      ensures user.Some? && !redeemed.QueryData? ==> userRewards == old(userRewards)
    {
      if user.Some? {
        RefreshRewards(user, available, redeemed);
      } else {
        userRewards := [];
        FetchAvailableRewards(available);
      }
    }
  }

  /** The store keeps showing only active rewards sorted by cost when the
      database answers the query as asked. */
  method FetchKeepsActiveByCost(store: RewardsStore, table: seq<Reward>, data: seq<Reward>)
    requires AnswersActiveByCost(table, data)
    modifies store
    ensures SortedByCost(store.rewards, false)
    ensures forall i :: 0 <= i < |store.rewards| ==> store.rewards[i].isActive && store.rewards[i] in table
  {
    store.FetchAvailableRewards(QueryData(Some(data)));
    forall i | 0 <= i < |store.rewards|
      ensures store.rewards[i].isActive && store.rewards[i] in table
    {
      AnswerRowsAreActive(table, data, store.rewards[i]);
    }
  }
}
