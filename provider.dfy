/** The provider component: a state holder whose methods run the setters of
    `providers/RevenueCatProvider.js` in the source's order, each tied to the
    matching transition of `ProviderSpec`. */
module RevenueCatProvider {
  import opened Wrappers
  import opened Purchases
  import opened ProviderSpec

  const OutsideProviderMessage: string := "useRevenueCat must be used within a RevenueCatProvider"

  /** The read side of the context value that screens consume. */
  datatype ContextValue = ContextValue(
    isReady: bool,
    isSubscribed: bool,
    customerInfo: Option<CustomerInfo>,
    currentOffering: Option<Offering>,
    error: Option<string>)

  /** `useRevenueCat`: the context inside a provider, an error outside one. */
  function UseRevenueCat(context: Option<ContextValue>): (r: Result<ContextValue, string>)
    ensures r.Ok? <==> context.Some?
    ensures r.Ok? ==> r.value == context.value
    ensures r.Err? ==> r.error == OutsideProviderMessage
  {
    if context.None? then Err(OutsideProviderMessage) else Ok(context.value)
  }

  class Provider {
    var isReady: bool
    var customerInfo: Option<CustomerInfo>
    var currentOffering: Option<Offering>
    var isSubscribed: bool
    var error: Option<string>
    /** Whether the SDK holds this provider's update listener. */
    var listenerRegistered: bool
    /** Alerts raised so far, oldest first. */
    var alerts: seq<Alert>

    function Snapshot(): State
      reads this
    {
      State(isReady, customerInfo, currentOffering, isSubscribed, error, listenerRegistered, alerts)
    }

    predicate Valid()
      reads this
    {
      Consistent(Snapshot())
    }

    function Context(): (c: ContextValue)
      reads this
      ensures Valid() ==> (c.isSubscribed <==> IsPremium(c.customerInfo))
    {
      ContextValue(isReady, isSubscribed, customerInfo, currentOffering, error)
    }

    constructor ()
      ensures Snapshot() == Initial() && Valid()
    {
      isReady, customerInfo, currentOffering, isSubscribed := false, None, None, false;
      error, listenerRegistered, alerts := None, false, [];
    }

    /** `updateSubscriptionStatus(info)`. */
    method UpdateSubscriptionStatus(info: Option<CustomerInfo>)
      modifies this`isSubscribed
      ensures isSubscribed == IsPremium(info)
    {
      isSubscribed := IsPremium(info);
    }

    /** The callback registered with `addCustomerInfoUpdateListener`. */
    method OnCustomerInfoUpdate(info: CustomerInfo)
      requires listenerRegistered
      modifies this
      ensures Snapshot() == ProviderSpec.OnCustomerInfoUpdate(old(Snapshot()), info)
      ensures Valid()
    {
      customerInfo := Some(info);
      UpdateSubscriptionStatus(Some(info));
    }

    method FetchOfferings(offerings: Outcome<Offerings>)
      modifies this
      ensures Snapshot() == ProviderSpec.FetchOfferings(old(Snapshot()), offerings)
      ensures old(Valid()) ==> Valid()
    {
      match offerings {
        case Rejected(e) =>
          error := e.message;
        case Resolved(o) =>
          if o.current.Some? {
            currentOffering := o.current;
          }
      }
    }

    /** `init`; returns the API key `configure` was called with, if any. */
    method Init(os: string, configure: Outcome<()>,
                info: Outcome<CustomerInfo>, offerings: Outcome<Offerings>)
      returns (configuredKey: Option<string>)
      modifies this
      ensures Transition(Snapshot(), configuredKey) == ProviderSpec.Init(old(Snapshot()), os, configure, info, offerings)
      ensures isReady
      ensures old(Valid()) ==> Valid()
    {
      configuredKey := ApiKeyFor(os);
      if configuredKey.Some? && configure.Rejected? {
        error := configure.error.message;
        isReady := true;
        return;
      }
      listenerRegistered := true;
      if info.Rejected? {
        error := info.error.message;
        isReady := true;
        return;
      }
      customerInfo := Some(info.value);
      UpdateSubscriptionStatus(customerInfo);
      FetchOfferings(offerings);
      isReady := true;
    }

    method PurchasePackage(outcome: Outcome<CustomerInfo>) returns (result: OperationResult)
      modifies this
      ensures Transition(Snapshot(), result) == ProviderSpec.PurchasePackage(old(Snapshot()), outcome)
      ensures old(Valid()) ==> Valid()
    {
      error := None;
      match outcome {
        case Resolved(updated) =>
          customerInfo := Some(updated);
          UpdateSubscriptionStatus(customerInfo);
          result := Completed(true, updated);
        case Rejected(e) =>
          if !e.userCancelled {
            error := e.message;
            alerts := alerts + [Alert(PurchaseFailedTitle, AlertText(e.message, PurchaseFailedFallback))];
          }
          result := Failed(e);
      }
    }

    method RestorePurchases(outcome: Outcome<CustomerInfo>) returns (result: OperationResult)
      modifies this
      ensures Transition(Snapshot(), result) == ProviderSpec.RestorePurchases(old(Snapshot()), outcome)
      ensures old(Valid()) ==> Valid()
    {
      error := None;
      match outcome {
        case Resolved(restored) =>
          customerInfo := Some(restored);
          UpdateSubscriptionStatus(customerInfo);
          var premium := IsPremium(Some(restored));
          if premium {
            alerts := alerts + [Alert(RestoredTitle, RestoredMessage)];
          } else {
            alerts := alerts + [Alert(NothingToRestoreTitle, NothingToRestoreMessage)];
          }
          result := Completed(premium, restored);
        case Rejected(e) =>
          error := e.message;
          alerts := alerts + [Alert(RestoreFailedTitle, AlertText(e.message, RestoreFailedFallback))];
          result := Failed(e);
      }
    }

    method CheckSubscription(outcome: Outcome<CustomerInfo>) returns (subscribed: bool)
      modifies this
      ensures Transition(Snapshot(), subscribed) == ProviderSpec.CheckSubscription(old(Snapshot()), outcome)
      ensures old(Valid()) ==> Valid()
    {
      match outcome {
        case Resolved(info) =>
          customerInfo := Some(info);
          UpdateSubscriptionStatus(customerInfo);
          subscribed := IsPremium(Some(info));
        case Rejected(_) =>
          subscribed := false;
      }
    }
  }

  /** A client: a fresh provider syncs an empty snapshot, then a purchase
      resolves with premium, then a second purchase is cancelled, then a
      restore finds nothing. */
  method PurchaseThenEmptyRestore(p: Package, premium: EntitlementInfo)
  {
    var provider := new Provider();
    var none := CustomerInfo(map[]);
    var key := provider.Init(IosPlatform, Resolved(()), Resolved(none), Resolved(Offerings(Some(Offering("default", [p])))));
    assert key == Some(IosApiKey) && provider.isReady && !provider.isSubscribed;
    assert provider.currentOffering == Some(Offering("default", [p]));

    var bought := CustomerInfo(map[PremiumEntitlement := premium]);
    var r := provider.PurchasePackage(Resolved(bought));
    assert r.Succeeded() && provider.isSubscribed && provider.customerInfo == Some(bought);
    assert provider.alerts == [];

    var cancelled := provider.PurchasePackage(Rejected(PurchasesError(Some("cancelled"), true)));
    assert !cancelled.Succeeded() && provider.error == None && provider.alerts == [];

    var restored := provider.RestorePurchases(Resolved(none));
    assert !restored.Succeeded() && !provider.isSubscribed;
    assert provider.alerts == [Alert(NothingToRestoreTitle, NothingToRestoreMessage)];
  }
}
