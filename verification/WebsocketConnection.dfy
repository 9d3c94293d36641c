/** The connection as the source writes it: an object whose event arms update three maps in
    place. Each arm equals a step of the protocol, so the object inherits its invariant. */
module WebsocketConnection {
  import opened ConnectionProtocol
  import R = ConnectionRuns

  /** Removes the listeners whose channel turned out to be closed, one by one. */
  method Prune(listeners: Listeners, toRemove: seq<SubscriberId>) returns (kept: Listeners)
    ensures kept == listeners - (set id | id in toRemove)
  {
    kept := listeners;
    for i := 0 to |toRemove|
      invariant kept == listeners - (set id | id in toRemove[..i])
    {
      kept := kept - {toRemove[i]};
      assert toRemove[..i + 1] == toRemove[..i] + [toRemove[i]];
    }
    assert toRemove[..|toRemove|] == toRemove;
  }

  class Connection {
    var inflights: map<RequestId, Subscription>
    var requestToSubs: map<RequestId, SubscriptionId>
    var subscriptions: map<SubscriptionId, Listeners>
    ghost var log: seq<Item>

    ghost function View(): Tables
      reads this
    {
      Tables(inflights, requestToSubs, subscriptions)
    }

    constructor ()
      ensures View() == EMPTY && log == [] && R.Inv(View(), log)
    {
      inflights, requestToSubs, subscriptions := map[], map[], map[];
      log := [];
    }

    method OnRequest(sub: Subscription)
      modifies this
      ensures View() == Step(old(View()), Submit(sub)) && log == old(log + Emits(View(), Submit(sub)))
    {
      inflights := inflights[sub.requestId := sub];
      log := log + [Submitted(sub.requestId, sub.subscriberId, sub.to)];
    }

    /** `open` is whether the subscriber's channel accepts the Subscribed message. */
    method OnConfirmation(id: RequestId, result: SubscriptionId, open: bool)
      modifies this
      ensures View() == Step(old(View()), Confirm(id, result, open))
      ensures log == old(log + Emits(View(), Confirm(id, result, open)))
    {
      if id !in inflights { assert log + [] == log; return; }
      var sub := inflights[id];
      inflights := inflights - {id};
      requestToSubs := requestToSubs[id := result];
      if !open { assert log + [] == log; return; }
      log := log + [ToldSubscribed(id, sub.subscriberId, sub.to)];
      var listeners := if result in subscriptions then subscriptions[result] else map[];
      var handle := Handle(sub.requestId, sub.to);
      subscriptions := subscriptions[result := listeners[sub.subscriberId := handle]];
    }

    /** Sends the notification to every listener and collects those that are gone. */
    method NotifyAll(listeners: Listeners, payload: nat, order: seq<SubscriberId>, closed: set<SubscriberId>)
      returns (toRemove: seq<SubscriberId>)
      requires forall id <- order :: id in listeners
      modifies this`log
      ensures log == old(log) + Notifications(listeners, order, payload)
      ensures forall id :: id in toRemove <==> id in order && id in closed
    {
      ghost var items := Notifications(listeners, order, payload);
      toRemove := [];
      for i := 0 to |order|
        invariant log == old(log) + items[..i]
        invariant forall id :: id in toRemove <==> id in order[..i] && id in closed
      {
        assert order[i] in order && order[..i + 1] == order[..i] + [order[i]];
        var handle := listeners[order[i]];
        log := log + [ToldNotification(handle.requestId, handle.to, payload)];
        if order[i] in closed { toRemove := toRemove + [order[i]]; }
      }
      assert order[..|order|] == order && items[..|items|] == items;
    }

    /** Notifies the listeners in the map's iteration order, then drops those whose channel
        was closed, and the subscription itself if nobody is left. */
    method OnNotification(s: SubscriptionId, payload: nat, order: seq<SubscriberId>, closed: set<SubscriberId>)
      requires Legal(View(), Deliver(s, payload, order, closed))
      modifies this
      ensures View() == Step(old(View()), Deliver(s, payload, order, closed))
      ensures log == old(log + Emits(View(), Deliver(s, payload, order, closed)))
    {
      if s !in subscriptions { assert log + [] == log; return; }
      var listeners := subscriptions[s];
      var toRemove := NotifyAll(listeners, payload, order, closed);
      var kept := Prune(listeners, toRemove);
      assert kept == listeners - closed;
      subscriptions := subscriptions[s := kept];
      if kept == map[] { subscriptions := subscriptions - {s}; }
    }

    method OnUnsubscription(r: RequestId, id: SubscriberId)
      modifies this
      ensures View() == Step(old(View()), Unsubscribe(r, id))
      ensures log == old(log) + [Unsubscribed(r, id)]
    {
      log := log + [Unsubscribed(r, id)];
      if r !in requestToSubs { return; }
      var s := requestToSubs[r];
      if s !in subscriptions { return; }
      var subscribers := subscriptions[s] - {id};
      subscriptions := subscriptions[s := subscribers];
      if subscribers == map[] { subscriptions := subscriptions - {s}; }
    }

    /** Drains the listeners in the map's iteration order and tells each one once. */
    method Reestablish(drain: seq<(SubscriptionId, SubscriberId)>)
      requires Legal(View(), Reconnect(drain))
      modifies this
      ensures inflights == old(inflights) && requestToSubs == map[] && subscriptions == map[]
      ensures log == old(log + Emits(View(), Reconnect(drain)))
    {
      ghost var items := Disconnects(View(), drain);
      ghost var was := View();
      requestToSubs := map[];
      for i := 0 to |drain|
        invariant log == old(log) + items[..i]
        invariant inflights == old(inflights) && requestToSubs == map[] && subscriptions == was.subscriptions
      {
        assert Listens(was, drain[i].0, drain[i].1);
        var handle := subscriptions[drain[i].0][drain[i].1];
        log := log + [ToldDisconnected(handle.requestId, handle.to)];
      }
      assert items[..|items|] == items;
      subscriptions := map[];
    }

    /** One turn of the event loop keeps the tables linked and the messages in order. */
    method Turn(e: Event)
      requires R.Inv(View(), log) && Legal(View(), e) && Courteous(View(), e)
      modifies this
      ensures View() == Step(old(View()), e) && log == old(log + Emits(View(), e))
      ensures R.Inv(View(), log)
    {
      R.StepKeeps(View(), log, e);
      match e {
        case Submit(sub) => OnRequest(sub);
        case Confirm(id, result, open) => OnConfirmation(id, result, open);
        case Deliver(s, payload, order, closed) => OnNotification(s, payload, order, closed);
        case Unsubscribe(r, id) => OnUnsubscription(r, id);
        case Reconnect(drain) => Reestablish(drain);
        case Noise => assert log + [] == log;
      }
    }
  }
}
