# Subscription-state provider, modelled in Dafny

This project models the subscription-state holder of a React Native app that sells a
"premium" subscription through the RevenueCat purchases SDK
(`providers/RevenueCatProvider.js`). The provider keeps five fields: `isReady`,
`customerInfo`, `currentOffering`, `isSubscribed` and `error`. Five operations change them:
`init` and the update listener it registers, `fetchOfferings`, `purchasePackage`,
`restorePurchases` and `checkSubscription`.

- `init` awaits up to three SDK calls in turn: `configure` (only on iOS and Android), `getCustomerInfo`, and `getOfferings` through `fetchOfferings`.
- The update listener awaits nothing. The SDK calls it with a new snapshot.
- Each of the other four operations awaits one SDK call.

Depending on how the awaited calls settle, an operation replaces some fields, returns a result and may raise an
alert.

Layout:

- `wrappers.dfy`, module `Wrappers`: `Option` (which stands for JavaScript `null`/`undefined`) and `Result`.
- `purchases.dfy`, module `Purchases`: the values the SDK hands over.
  - `CustomerInfo` is the map `entitlements.active`.
  - `Offerings` carries an optional `current` offering.
  - `PurchasesError` is `e.message` (which may be undefined) together with `e.userCancelled`.
  - `Outcome<T>` is an awaited call that is either `Resolved` or `Rejected`.
  - The running platform is the string `Platform.OS`.
- `provider_spec.dfy`, module `ProviderSpec`: the provider as a pure transition system.
  - `State` holds the five fields, whether the SDK holds the listener, and the log of alerts raised.
  - There is one function per operation. It maps the old state and the SDK's answer to the new state and the returned value.
  - `Consistent` is the derived-state invariant `isSubscribed == IsPremium(customerInfo)`.
- `provider_runs.dfy`, module `ProviderRuns`: arbitrary sequences of operations and listener pushes, with inductive lemmas about them. These cover readiness, consistency, offerings and the alert log.
- `provider.dfy`, module `RevenueCatProvider`: class `Provider` with the five fields.
  - Its methods run the source's setters in the source's order.
  - Each method's postcondition equates the new field values and the result with the matching `ProviderSpec` transition.
  - The module also holds `useRevenueCat` and a client method, `PurchaseThenEmptyRestore`, that reasons only from those postconditions.

The SDK answers are inputs: each method receives the `Outcome` of every SDK call it makes.

Two details of the code shape the model:

- `setError(null)` (line 81) runs before the SDK call, so a cancelled purchase leaves `error` null, whatever it held before.
- The premium check tests only that the key `"premium"` is present under `entitlements.active` (lines 63, 107, 135). The expiration date is carried but never inspected.

## Model

| member | source | states |
|---|---|---|
| ProviderSpec.IsPremium | providers/RevenueCatProvider.js:63 | "premium" is present among the active entitlements; false when there is no snapshot |
| ProviderSpec.Initial | providers/RevenueCatProvider.js:20-24 | the mounted state is not ready, has no snapshot, no offering, no error, is not subscribed, holds no listener and has raised no alert; it is consistent |
| ProviderSpec.AlertText | providers/RevenueCatProvider.js:90-94 | alert body `message \|\| fallback`: a non-empty message is shown as is, an undefined or empty one gives the fixed text, and the body is never empty |
| ProviderSpec.ApiKeyFor | providers/RevenueCatProvider.js:31-35 | `configure` is called exactly when `Platform.OS` is `"ios"` (with the iOS key) or `"android"` (with the Android key); every other value makes no call |
| ProviderSpec.ReplaceCustomerInfo | providers/RevenueCatProvider.js:62-65 | `setCustomerInfo(info)` followed by `updateSubscriptionStatus(info)` makes the state consistent, stores `info`, sets the flag to "premium present in info", and changes nothing else |
| ProviderSpec.OnCustomerInfoUpdate | providers/RevenueCatProvider.js:38-41 | a listener push replaces the snapshot and recomputes the flag, with every other field unchanged |
| ProviderSpec.FetchOfferings | providers/RevenueCatProvider.js:67-77 | adopts `offerings.current` only when present; with none it changes nothing; on failure it sets `error` to the message and keeps the offering; a known offering is never cleared |
| ProviderSpec.Init | providers/RevenueCatProvider.js:27-57 | ends ready on every path; configures with the platform key; a configure failure records the message only; a snapshot failure registers the listener and records the message; otherwise it syncs the snapshot and fetches offerings, whose failure does not reach the catch; it raises no alert and keeps consistency |
| ProviderSpec.PurchasePackage | providers/RevenueCatProvider.js:79-98 | success iff the SDK resolved, returning `{success: true}` with that same snapshot, which is adopted; a cancellation leaves `error` null, the snapshot unchanged and raises no alert; any other failure sets `error` to the message and raises exactly one "Purchase Failed" alert; ready flag and offering untouched |
| ProviderSpec.RestorePurchases | providers/RevenueCatProvider.js:100-128 | exactly one alert on every path; a resolved restore adopts the snapshot and reports success iff premium is present ("Success" or "No Subscription Found"); a thrown failure keeps the snapshot, sets `error` and raises "Restore Failed" with `success = false` |
| ProviderSpec.CheckSubscription | providers/RevenueCatProvider.js:130-140 | on success the returned flag equals the new `isSubscribed` (premium present in the pulled snapshot); on failure it returns false and changes no state, not even `error` |
| ProviderRuns.ApplyKeeps | providers/RevenueCatProvider.js:26-140 | each single event preserves consistency, readiness and a known offering, and only appends to the alert log |
| ProviderRuns.RunKeepsConsistent | providers/RevenueCatProvider.js:38-139 | for any sequence of operations and pushes, `isSubscribed` stays the premium check of the latest snapshot |
| ProviderRuns.ConsistentFromMount | providers/RevenueCatProvider.js:20-24 | starting from the mounted state, every reachable state is consistent |
| ProviderRuns.RunKeepsReady | providers/RevenueCatProvider.js:51-55 | `isReady` is only ever set to true, so a ready provider stays ready |
| ProviderRuns.InitializedRunIsReady | providers/RevenueCatProvider.js:49-56 | any run that contains `init` ends ready, whatever the SDK answered |
| ProviderRuns.RunKeepsOffering | providers/RevenueCatProvider.js:67-77 | once an offering is known, no sequence of events clears it |
| ProviderRuns.RunOnlyAppendsAlerts | providers/RevenueCatProvider.js:90-125 | the alert log after any run extends the log before it |
| RevenueCatProvider.UseRevenueCat | providers/RevenueCatProvider.js:11-17 | returns the context inside a provider and fails with the "must be used within a RevenueCatProvider" message outside one |
| RevenueCatProvider.Provider.Context | providers/RevenueCatProvider.js:142-155 | the value screens read; in a valid provider its `isSubscribed` is the premium check of its `customerInfo` |
| RevenueCatProvider.Provider.constructor | providers/RevenueCatProvider.js:20-24 | the five fields start as `false`, `null`, `null`, `false`, `null`, and the state is the spec's initial one |
| RevenueCatProvider.Provider.UpdateSubscriptionStatus | providers/RevenueCatProvider.js:62-65 | sets only `isSubscribed`, to the premium check of the given snapshot |
| RevenueCatProvider.Provider.OnCustomerInfoUpdate | providers/RevenueCatProvider.js:38-41 | the registered callback's new state is `ProviderSpec.OnCustomerInfoUpdate` of the old one, and the provider is valid |
| RevenueCatProvider.Provider.FetchOfferings | providers/RevenueCatProvider.js:67-77 | the new state is `ProviderSpec.FetchOfferings` of the old one; validity is kept |
| RevenueCatProvider.Provider.Init | providers/RevenueCatProvider.js:27-57 | the new state and the configured key are `ProviderSpec.Init` of the old state; the provider is ready afterwards; validity is kept |
| RevenueCatProvider.Provider.PurchasePackage | providers/RevenueCatProvider.js:79-98 | the new state and the returned result are `ProviderSpec.PurchasePackage` of the old state; validity is kept |
| RevenueCatProvider.Provider.RestorePurchases | providers/RevenueCatProvider.js:100-128 | the new state and the returned result are `ProviderSpec.RestorePurchases` of the old state; validity is kept |
| RevenueCatProvider.Provider.CheckSubscription | providers/RevenueCatProvider.js:130-140 | the new state and the returned flag are `ProviderSpec.CheckSubscription` of the old state; validity is kept |

## Left out

- The purchases SDK: `configure`, `getCustomerInfo`, `getOfferings`, `purchasePackage`, `restorePurchases`, `setLogLevel` and `addCustomerInfoUpdateListener`. Each call becomes an `Outcome` parameter, and registration becomes the `listenerRegistered` flag.
- `setLogLevel` is not modelled. It is an SDK call with no effect on the provider's state.
- The package passed to `purchasePackage` is not a parameter of the model, because it is handed straight to the SDK. Only the SDK's answer matters to the provider.
- React mechanics are not modelled: context plumbing, `useState` batching, `useEffect` scheduling and rendering. The mounted provider is the class constructor, and `init` is a method that the effect calls.
- Concurrency is not modelled. Listener pushes that interleave with in-flight calls are treated as sequential events.
- Alerts are recorded in a log with their title and message. The "OK" button and the UI itself are not modelled.
- `console.error` logging is not modelled.
- Snapshots the SDK hands over are never `null` in the model. The `null` case of the premium check arises only from the initial state.
- An entitlement key that is present but maps to `undefined` is not representable, since a map holds a value for every key it contains.
- Thrown values are modelled as errors with an optional message and a cancellation flag. A thrown value that is not such an error object is not modelled.
- Screens (`screens/HomeScreen.js`, `screens/SubscriptionScreen.js`, `screens/LoginScreen.js`) and `App.js` are not modelled: they are layout, styling and navigation. This includes the expiration-date formatting on the home screen and `Linking.openURL`.
- Apple Sign-In and storing the user's name and email are not part of this model. The login button of the repository's screens only navigates.
- RevenueCatProvider.Provider.OnCustomerInfoUpdate requires that the listener is registered, because the callback exists only after `init` has registered it. In `ProviderRuns.Run`, a push that arrives before registration therefore reaches no provider code.
