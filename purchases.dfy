/** The values that the purchases SDK hands to the provider. The SDK itself
    (configuration, network, store transactions) is not modelled: each call
    becomes an `Outcome` supplied by the caller of the model. */
module Purchases {
  import opened Wrappers

  /** One active entitlement; the expiration date is carried but never
      inspected by the provider. */
  datatype EntitlementInfo = EntitlementInfo(identifier: string, expirationDate: Option<string>)

  /** A snapshot of the customer's entitlements: `entitlements.active`,
      keyed by entitlement identifier. */
  datatype CustomerInfo = CustomerInfo(activeEntitlements: map<string, EntitlementInfo>)

  datatype Package = Package(identifier: string, priceString: string, productTitle: string)

  datatype Offering = Offering(identifier: string, availablePackages: seq<Package>)

  /** The catalogue answered by `getOfferings`; only `current` is used. */
  datatype Offerings = Offerings(current: Option<Offering>)

  /** What a rejected SDK call throws: `e.message` (possibly undefined) and
      the `e.userCancelled` marker. */
  datatype PurchasesError = PurchasesError(message: Option<string>, userCancelled: bool)

  /** How an awaited SDK call settles. */
  datatype Outcome<+T> = Resolved(value: T) | Rejected(error: PurchasesError)
}
