/**
 * The notification bus of notify/notification_source.py: an ordered list of
 * subscribed sinks and a fan-out that offers every event to each of them in
 * turn. A sink is modelled by its identity (Python compares sinks by
 * identity when removing them); delivering an event to it is recorded as a
 * `Delivery` in the trace that `Notify` returns.
 */
module NotificationBus {

  datatype Delivery<T> = Delivery(sink: object, arg: T)

  /** Index of the first occurrence of `x` in `s`. */
  function IndexOf<X(==)>(s: seq<X>, x: X): (i: nat)
    requires x in s
    ensures i < |s| && s[i] == x
    ensures x !in s[..i]
  {
    if s[0] == x then 0 else 1 + IndexOf(s[1..], x)
  }

  /** Python's `list.remove`: drop the first occurrence of `x`, keep the rest in order. */
  function RemoveFirst<X(==)>(s: seq<X>, x: X): (r: seq<X>)
    requires x in s
    ensures |r| == |s| - 1
    ensures multiset(r) == multiset(s) - multiset{x}
    ensures var i := IndexOf(s, x); r[..i] == s[..i] && r[i..] == s[i + 1..]
  {
    var i := IndexOf(s, x);
    assert s == s[..i] + [x] + s[i + 1..];
    s[..i] + s[i + 1..]
  }

  /** Removing what was just appended, and was not there before, gives back the list. */
  lemma AppendThenRemoveFirst<X>(s: seq<X>, x: X)
    requires x !in s
    ensures RemoveFirst(s + [x], x) == s
  {
  }

  /** With an earlier copy present, a removal leaves every later copy in place. */
  lemma RemoveFirstKeepsLaterCopies<X>(s: seq<X>, x: X)
    requires multiset(s)[x] >= 2
    ensures x in RemoveFirst(s, x)
  {
    assert x in multiset(RemoveFirst(s, x));
  }

  class NotificationSource<T> {
    var subscribers: seq<object>

    constructor ()
      ensures subscribers == []
    {
      subscribers := [];
    }

    /** Appends `subscriber`; a sink subscribed twice is notified twice. */
    method Subscribe(subscriber: object)
      modifies this
      ensures subscribers == old(subscribers) + [subscriber]
    {
      subscribers := subscribers + [subscriber];
    }

    /**
     * Removes the first occurrence of `subscriber`. When it is not
     * subscribed the source raises ValueError: `removed` is then false and
     * the list is unchanged.
     */
    method Unsubscribe(subscriber: object) returns (removed: bool)
      modifies this
      ensures removed <==> subscriber in old(subscribers)
      ensures subscribers == if removed then RemoveFirst(old(subscribers), subscriber) else old(subscribers)
    {
      if subscriber !in subscribers {
        return false;
      }
      subscribers := RemoveFirst(subscribers, subscriber);
      return true;
    }

    /**
     * Awaits each subscriber's `notify(arg)` in subscription order. An await
     * that raises (`fails(k)` for the k-th one) ends the loop: that
     * subscriber has been offered `arg`, the ones after it have not, and the
     * exception reaches the caller (`raised`). Raising belongs to the call,
     * not the sink, so a sink subscribed twice may return once and raise
     * the second time. The list is not changed.
     */
    method Notify(arg: T, fails: nat -> bool) returns (deliveries: seq<Delivery<T>>, raised: bool)
      ensures |deliveries| <= |subscribers|
      ensures forall k :: 0 <= k < |deliveries| ==> deliveries[k] == Delivery(subscribers[k], arg)
      ensures forall k: nat :: k < |deliveries| - 1 ==> !fails(k)
      ensures raised ==> |deliveries| >= 1 && fails(|deliveries| - 1)
      ensures !raised ==> |deliveries| == |subscribers| && forall k: nat :: k < |subscribers| ==> !fails(k)
    {
      deliveries := [];
      raised := false;
      var k := 0;
      while k < |subscribers|
        invariant 0 <= k <= |subscribers|
        invariant |deliveries| == k
        invariant forall j :: 0 <= j < k ==> deliveries[j] == Delivery(subscribers[j], arg)
        invariant forall j: nat :: j < k ==> !fails(j)
      {
        deliveries := deliveries + [Delivery(subscribers[k], arg)];
        if fails(k) {
          return deliveries, true;
        }
        k := k + 1;
      }
    }
  }
}
