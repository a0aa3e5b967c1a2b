/**
 * The subscription hook: the signed-in user's Stripe subscription row, read
 * once per change of user, with a loading flag, the plan name it pays for
 * and whether it is active.
 */
module UseSubscription {
  import opened Wrappers
  import StripeConfig

  /** One row of the subscriptions view; every column may be null. */
  datatype Subscription = Subscription(
    customerId: Option<string>,
    subscriptionId: Option<string>,
    subscriptionStatus: Option<string>,
    priceId: Option<string>,
    currentPeriodStart: Option<int>,
    currentPeriodEnd: Option<int>,
    cancelAtPeriodEnd: Option<bool>,
    paymentMethodBrand: Option<string>,
    paymentMethodLast4: Option<string>)

  /** How the query for the row ended: a row or none, an error reported by the client, or an exception. */
  datatype FetchOutcome = Fetched(row: Option<Subscription>) | QueryError(message: string) | FetchThrew(message: string)

  /** The subscription the hook holds once the effect for a user has finished. */
  function SubscriptionAfter(signedIn: bool, outcome: FetchOutcome): (sub: Option<Subscription>)
    ensures sub.Some? ==> signedIn && outcome == Fetched(sub)
    ensures signedIn && outcome.Fetched? ==> sub == outcome.row
  {
    if !signedIn then None
    else match outcome
      case Fetched(row) => row
      case QueryError(_) => None
      case FetchThrew(_) => None
  }

  /** The subscription counts as active exactly when it exists and its status is "active". */
  function IsActive(sub: Option<Subscription>): (active: bool)
    ensures active <==> sub.Some? && sub.value.subscriptionStatus == Some("active")
  {
    sub.Some? && sub.value.subscriptionStatus == Some("active")
  }

  /**
   * The plan's name: none without a subscription or with a missing or empty
   * price id; otherwise the name of the catalogue product with that price id,
   * unless there is no such product or its name is empty.
   */
  function GetSubscriptionPlan(sub: Option<Subscription>): (plan: Option<string>)
    ensures plan.Some? ==> sub.Some? && sub.value.priceId.Some? && sub.value.priceId.value != []
    ensures plan.Some? ==>
      exists p :: p in StripeConfig.StripeProducts && Some(p.priceId) == sub.value.priceId && p.name == plan.value
    ensures plan.Some? ==> plan.value != []
    ensures sub.Some? && sub.value.priceId.Some? ==>
      (var product := StripeConfig.GetProductByPriceId(sub.value.priceId.value);
       product.Some? && product.value.name != [] ==> plan == Some(product.value.name))
  {
    if sub.None? || sub.value.priceId.None? || sub.value.priceId.value == [] then None
    else
      var product := StripeConfig.GetProductByPriceId(sub.value.priceId.value);
      if product.Some? && product.value.name != [] then Some(product.value.name) else None
  }

  /** A subscription to the catalogue's Pro price is reported as the Pro plan. */
  lemma {:induction false} ProPriceIsProPlan(sub: Subscription)
    requires sub.priceId == Some(StripeConfig.Pro.priceId)
    ensures GetSubscriptionPlan(Some(sub)) == Some("CustodyX.AI Pro")
  {
    StripeConfig.LookupsFindEachProduct(StripeConfig.Pro);
  }

  /** A price id outside the catalogue names no plan. */
  lemma {:induction false} UnknownPriceHasNoPlan(sub: Subscription)
    requires sub.priceId.Some? && sub.priceId.value != StripeConfig.Pro.priceId
    ensures GetSubscriptionPlan(Some(sub)) == None
  {
    assert forall i :: 0 <= i < |StripeConfig.StripeProducts| ==>
      StripeConfig.StripeProducts[i].priceId != sub.priceId.value;
  }

  /** Without a user, or when the query failed, there is neither an active subscription nor a plan. */
  lemma NothingWithoutRow(signedIn: bool, outcome: FetchOutcome)
    requires !signedIn || !outcome.Fetched?
    ensures !IsActive(SubscriptionAfter(signedIn, outcome))
    ensures GetSubscriptionPlan(SubscriptionAfter(signedIn, outcome)).None?
  {
  }

  class SubscriptionHook {
    var subscription: Option<Subscription>
    var loading: bool

    /** On mount nothing is known yet and the hook is loading. */
    constructor ()
      ensures subscription.None? && loading
    {
      subscription := None;
      loading := true;
    }

    /**
     * The effect for the current user, once finished: signed out, the
     * subscription is cleared at once; signed in, it becomes the fetched row,
     * or nothing when the query failed or threw. Either way loading ends.
     */
    method Refresh(signedIn: bool, outcome: FetchOutcome)
      modifies this
      ensures subscription == SubscriptionAfter(signedIn, outcome)
      ensures !loading
    {
      if !signedIn {
        subscription := None;
        loading := false;
        return;
      }
      match outcome {
        case Fetched(row) => subscription := row;
        case QueryError(_) => subscription := None;
        case FetchThrew(_) => subscription := None;
      }
      loading := false;
    }

    /** The plan name of the subscription held. */
    function Plan(): (plan: Option<string>)
      reads this
      ensures plan.Some? ==> subscription.Some?
    {
      GetSubscriptionPlan(subscription)
    }

    /** Whether the subscription held is active. */
    function Active(): (active: bool)
      reads this
      ensures active ==> subscription.Some?
    {
      IsActive(subscription)
    }
  }
}
