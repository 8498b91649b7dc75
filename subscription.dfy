/**
 * The subscription hook (`useSubscription`): the signed-in user's record,
 * kept current by a live document subscription, and the trial arithmetic
 * derived from it. Time is an integer count of milliseconds since the epoch.
 */
module Subscription {
  import opened Wrappers
  import opened Auth

  datatype Status = Trial | Active | Cancelled | Expired

  datatype Plan = TrialPlan | Monthly | Annual

  datatype SubscriptionData = SubscriptionData(status: Status, trialEndDate: Option<int>, plan: Plan, isActive: bool)

  datatype UserData = UserData(subscription: Option<SubscriptionData>, emailVerified: bool, displayName: string, email: string)

  /** `1000 * 60 * 60 * 24`. */
  const MsPerDay := 1000 * 60 * 60 * 24

  /** `Math.ceil(ms / MsPerDay)`, on integers. */
  function CeilDays(ms: int): (days: int)
    ensures (days - 1) * MsPerDay < ms <= days * MsPerDay
  {
    -((-ms) / MsPerDay)
  }

  /** `userData?.subscription?.trialEndDate`. */
  function TrialEnd(userData: Option<UserData>): (e: Option<int>)
    ensures e.Some? <==>
      userData.Some? && userData.value.subscription.Some? && userData.value.subscription.value.trialEndDate.Some?
    ensures e.Some? ==> e == userData.value.subscription.value.trialEndDate
  {
    if userData.Some? && userData.value.subscription.Some? then userData.value.subscription.value.trialEndDate
    else None
  }

  /**
   * `getTrialDaysRemaining`: the number of started days left before the
   * trial ends, never negative, and 0 without a trial end date.
   */
  function TrialDaysRemaining(userData: Option<UserData>, now: int): (days: nat)
    ensures TrialEnd(userData).None? ==> days == 0
    ensures TrialEnd(userData).Some? ==>
      var left := TrialEnd(userData).value - now;
      && (days == 0 <==> left <= 0)
      && (days > 0 ==> (days - 1) * MsPerDay < left <= days * MsPerDay)
  {
    if TrialEnd(userData).None? then 0
    else
      var diffDays := CeilDays(TrialEnd(userData).value - now);
      if 0 < diffDays then diffDays else 0
  }

  /** As time passes with the end date fixed, the days remaining never go up. */
  lemma DaysRemainingNonIncreasing(userData: Option<UserData>, earlier: int, later: int)
    requires earlier <= later
    ensures TrialDaysRemaining(userData, later) <= TrialDaysRemaining(userData, earlier)
  {
  }

  /** `isTrialActive`: a trial subscription with at least one day left. */
  predicate IsTrialActive(userData: Option<UserData>, now: int) {
    if userData.None? || userData.value.subscription.None? then false
    else userData.value.subscription.value.status == Trial && TrialDaysRemaining(userData, now) > 0
  }

  /**
   * A trial is active exactly when the subscription says `trial` and its end
   * date lies strictly in the future: an expired trial is inactive whatever
   * its status says.
   */
  lemma TrialActiveIff(userData: Option<UserData>, now: int)
    ensures IsTrialActive(userData, now) <==>
      && userData.Some? && userData.value.subscription.Some?
      && userData.value.subscription.value.status == Trial
      && userData.value.subscription.value.trialEndDate.Some?
      && now < userData.value.subscription.value.trialEndDate.value
  {
  }

  class SubscriptionHook {
    var user: Option<User>
    var userData: Option<UserData>
    var loading: bool
    /** The `onAuthStateChanged` observer is registered. */
    var authObserved: bool
    /**
     * The uid of every document subscription opened, in order. The source
     * returns each one's unsubscribe from the auth callback, where it is
     * discarded, so none of them is ever closed.
     */
    ghost var listeners: seq<string>

    constructor ()
      ensures user == None && userData == None && loading && authObserved && listeners == []
    {
      user, userData, loading, authObserved := None, None, true, true;
      listeners := [];
    }

    /**
     * The auth callback: signing out clears the record and ends loading;
     * signing in opens a subscription on the user's document and keeps the
     * previous record and loading flag until it delivers.
     */
    method OnAuthStateChanged(u: Option<User>)
      requires authObserved
      modifies this
      ensures user == u && authObserved
      ensures u.None? ==> userData == None && !loading && listeners == old(listeners)
      ensures u.Some? ==>
        userData == old(userData) && loading == old(loading) && listeners == old(listeners) + [u.value.uid]
    {
      user := u;
      if u.Some? {
        listeners := listeners + [u.value.uid];
      } else {
        userData := None;
        loading := false;
      }
    }

    /**
     * A snapshot delivered to the `listener`-th subscription: an existing
     * document replaces the record, a missing one leaves it; loading ends.
     */
    method OnSnapshot(listener: nat, doc: Option<UserData>)
      requires listener < |listeners|
      modifies this`userData, this`loading
      ensures !loading
      ensures userData == if doc.Some? then doc else old(userData)
    {
      if doc.Some? {
        userData := doc;
      }
      loading := false;
    }

    /** The effect's cleanup: only the auth observer is unsubscribed. */
    method Teardown()
      requires authObserved
      modifies this`authObserved
      ensures !authObserved
    {
      authObserved := false;
    }
  }
}
