/**
 * The subscription list: src/core/subscription.py, with identical copies in src/feed.py and
 * wsc/feed.py that differ only in the configuration record they hold.
 */
module Subscription {

  /** `SubscriptionManager`: the configured subscriptions in the order they were added. */
  class SubscriptionManager<T> {
    var subscriptions: seq<T>

    /** The list starts empty. */
    constructor()
      ensures subscriptions == []
    {
      subscriptions := [];
    }

    /** `add_subscription`: appends at the end. */
    method AddSubscription(config: T)
      modifies this
      ensures subscriptions == old(subscriptions) + [config]
    {
      subscriptions := subscriptions + [config];
    }

    /**
     * `get_subscriptions`: a copy, equal to the list and in the same order. A Dafny sequence
     * is a value, so nothing the caller does to it reaches the manager.
     */
    method GetSubscriptions() returns (r: seq<T>)
      ensures r == subscriptions
      ensures |r| == |subscriptions| && forall i | 0 <= i < |r| :: r[i] == subscriptions[i]
    {
      r := subscriptions;
    }

    /** `clear_subscriptions` */
    method ClearSubscriptions()
      modifies this
      ensures subscriptions == []
    {
      subscriptions := [];
    }
  }
}
