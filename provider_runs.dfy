/** Sequences of provider events in any order: the properties that hold
    however the operations and the listener's pushes are interleaved. */
module ProviderRuns {
  import opened Wrappers
  import opened Purchases
  import opened ProviderSpec

  /** One call into the provider, or one push from the SDK, with the SDK's
      answers it receives. */
  datatype Event =
    | Initialize(os: string, configure: Outcome<()>, info: Outcome<CustomerInfo>, offerings: Outcome<Offerings>)
    | ListenerPush(pushed: CustomerInfo)
    | FetchOfferingsCall(fetched: Outcome<Offerings>)
    | PurchaseCall(purchased: Outcome<CustomerInfo>)
    | RestoreCall(restored: Outcome<CustomerInfo>)
    | CheckCall(checked: Outcome<CustomerInfo>)

  /** The state after one event. The SDK only pushes to a listener it holds,
      so a push before registration reaches no provider code. */
  function Apply(s: State, e: Event): State
  {
    match e
    case Initialize(p, c, i, o) => Init(s, p, c, i, o).state
    case ListenerPush(info) => if s.listenerRegistered then OnCustomerInfoUpdate(s, info) else s
    case FetchOfferingsCall(o) => FetchOfferings(s, o)
    case PurchaseCall(out) => PurchasePackage(s, out).state
    case RestoreCall(out) => RestorePurchases(s, out).state
    case CheckCall(out) => CheckSubscription(s, out).state
  }

  /** The state after a sequence of events, first event first. */
  function Run(s: State, es: seq<Event>): State
    decreases |es|
  {
    if es == [] then s else Run(Apply(s, es[0]), es[1..])
  }

  lemma ApplyKeeps(s: State, e: Event)
    ensures Consistent(s) ==> Consistent(Apply(s, e))
    ensures s.isReady ==> Apply(s, e).isReady
    ensures s.currentOffering.Some? ==> Apply(s, e).currentOffering.Some?
    ensures s.alerts <= Apply(s, e).alerts
  {
  }

  /** From the initial state on, whatever happens, `isSubscribed` is the
      premium check of the most recently applied snapshot. */
  lemma {:induction false} RunKeepsConsistent(s: State, es: seq<Event>)
    requires Consistent(s)
    ensures Consistent(Run(s, es))
    decreases |es|
  {
    if es != [] {
      ApplyKeeps(s, es[0]);
      RunKeepsConsistent(Apply(s, es[0]), es[1..]);
    }
  }

  lemma ConsistentFromMount(es: seq<Event>)
    ensures Consistent(Run(Initial(), es))
  {
    RunKeepsConsistent(Initial(), es);
  }

  /** Once ready, the provider stays ready. */
  lemma {:induction false} RunKeepsReady(s: State, es: seq<Event>)
    requires s.isReady
    ensures Run(s, es).isReady
    decreases |es|
  {
    if es != [] {
      ApplyKeeps(s, es[0]);
      RunKeepsReady(Apply(s, es[0]), es[1..]);
    }
  }

  /** Any run that contains an initialisation ends ready, whatever the SDK
      answered. */
  lemma {:induction false} InitializedRunIsReady(s: State, es: seq<Event>, i: nat)
    requires i < |es| && es[i].Initialize?
    ensures Run(s, es).isReady
    decreases |es|
  {
    if i == 0 {
      RunKeepsReady(Apply(s, es[0]), es[1..]);
    } else {
      InitializedRunIsReady(Apply(s, es[0]), es[1..], i - 1);
    }
  }

  /** A known offering is never taken away, by a failed fetch or otherwise. */
  lemma {:induction false} RunKeepsOffering(s: State, es: seq<Event>)
    requires s.currentOffering.Some?
    ensures Run(s, es).currentOffering.Some?
    decreases |es|
  {
    if es != [] {
      ApplyKeeps(s, es[0]);
      RunKeepsOffering(Apply(s, es[0]), es[1..]);
    }
  }

  /** Alerts are only ever appended. */
  lemma {:induction false} RunOnlyAppendsAlerts(s: State, es: seq<Event>)
    ensures s.alerts <= Run(s, es).alerts
    decreases |es|
  {
    if es != [] {
      ApplyKeeps(s, es[0]);
      RunOnlyAppendsAlerts(Apply(s, es[0]), es[1..]);
    }
  }
}
