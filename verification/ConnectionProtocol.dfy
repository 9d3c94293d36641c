/** One upstream websocket connection: its three linked tables as values, what each event
    does to them and which messages it makes the connection send. The order in which a
    hash map is iterated is part of the event, so every order is covered. */
module ConnectionProtocol {
  import opened RouterTypes

  type RequestId = nat
  type SubscriberId = nat
  type SubscriptionId = nat
  type Channel = nat

  datatype UpstreamKind = Chain | Ephem

  /** The channel of an internal actor, and the kind of upstream its notifications are marked with. */
  datatype Endpoint = Endpoint(channel: Channel, upstream: UpstreamKind)

  /** A request of an internal actor; `to` is where its messages go. */
  datatype Subscription = Subscription(
    requestId: RequestId, subscriberId: SubscriberId, to: Endpoint)

  datatype Handle = Handle(requestId: RequestId, to: Endpoint)

  type Listeners = map<SubscriberId, Handle>

  datatype Tables = Tables(
    inflights: map<RequestId, Subscription>,
    requestToSubs: map<RequestId, SubscriptionId>,
    subscriptions: map<SubscriptionId, Listeners>)

  const EMPTY: Tables := Tables(map[], map[], map[])

  /** `open` and `closed` say which channels still accept a message. */
  datatype Event =
    | Submit(sub: Subscription)
    | Confirm(id: RequestId, result: SubscriptionId, open: bool)
    | Deliver(subscription: SubscriptionId, payload: nat, order: seq<SubscriberId>, closed: set<SubscriberId>)
    | Unsubscribe(requestId: RequestId, subscriberId: SubscriberId)
    | Reconnect(drain: seq<(SubscriptionId, SubscriberId)>)
    | Noise

  /** What an observer of the connection sees: submissions and unsubscriptions as they are
      processed, and every message sent to a subscriber. */
  datatype Item =
    | Submitted(request: RequestId, subscriber: SubscriberId, to: Endpoint)
    | ToldSubscribed(request: RequestId, subscriber: SubscriberId, to: Endpoint)
    | ToldNotification(request: RequestId, to: Endpoint, payload: nat)
    | ToldDisconnected(request: RequestId, to: Endpoint)
    | Unsubscribed(request: RequestId, subscriber: SubscriberId)

  predicate Listens(t: Tables, s: SubscriptionId, id: SubscriberId) {
    s in t.subscriptions && id in t.subscriptions[s]
  }

  function At(t: Tables, s: SubscriptionId, id: SubscriberId): Handle
    requires Listens(t, s, id)
  {
    t.subscriptions[s][id]
  }

  /** Iteration orders visit each listener exactly once. */
  predicate Legal(t: Tables, e: Event) {
    match e
    case Deliver(s, _, order, _) => s in t.subscriptions ==> Enumerates(order, t.subscriptions[s].Keys)
    case Reconnect(drain) =>
      && (forall i, j | 0 <= i < j < |drain| :: drain[i] != drain[j])
      && (forall i | 0 <= i < |drain| :: Listens(t, drain[i].0, drain[i].1))
      && (forall s <- t.subscriptions :: forall id <- t.subscriptions[s] :: (s, id) in drain)
    case _ => true
  }

  /** Some listener still receives messages for this request. */
  ghost predicate Listening(t: Tables, r: RequestId) {
    exists s, id :: Listens(t, s, id) && At(t, s, id).requestId == r
  }

  /** The one demand on clients: no request id is submitted while it has a listener. */
  ghost predicate Courteous(t: Tables, e: Event) {
    e.Submit? ==> !Listening(t, e.sub.requestId)
  }

  function Put(subs: map<SubscriptionId, Listeners>, s: SubscriptionId, ls: Listeners): map<SubscriptionId, Listeners> {
    if ls == map[] then subs - {s} else subs[s := ls]
  }

  function Step(t: Tables, e: Event): Tables {
    match e
    case Submit(sub) => t.(inflights := t.inflights[sub.requestId := sub])
    case Confirm(id, result, open) =>
      if id !in t.inflights then t
      else
        var sub := t.inflights[id];
        var ls := if result in t.subscriptions then t.subscriptions[result] else map[];
        Tables(
          t.inflights - {id},
          t.requestToSubs[id := result],
          if open then t.subscriptions[result := ls[sub.subscriberId := Handle(sub.requestId, sub.to)]]
          else t.subscriptions)
    case Deliver(s, _, _, closed) =>
      if s !in t.subscriptions then t
      else t.(subscriptions := Put(t.subscriptions, s, t.subscriptions[s] - closed))
    case Unsubscribe(r, id) =>
      if r !in t.requestToSubs || t.requestToSubs[r] !in t.subscriptions then t
      else
        var s := t.requestToSubs[r];
        t.(subscriptions := Put(t.subscriptions, s, t.subscriptions[s] - {id}))
    case Reconnect(_) => Tables(t.inflights, map[], map[])
    case Noise => t
  }

  function Disconnects(t: Tables, drain: seq<(SubscriptionId, SubscriberId)>): seq<Item>
    requires forall i | 0 <= i < |drain| :: Listens(t, drain[i].0, drain[i].1)
  {
    seq(|drain|, i requires 0 <= i < |drain| && Listens(t, drain[i].0, drain[i].1) =>
      var h := At(t, drain[i].0, drain[i].1);
      ToldDisconnected(h.requestId, h.to))
  }

  function Notifications(ls: Listeners, order: seq<SubscriberId>, payload: nat): seq<Item>
    requires forall id <- order :: id in ls
  {
    seq(|order|, i requires 0 <= i < |order| =>
      assert order[i] in order;
      ToldNotification(ls[order[i]].requestId, ls[order[i]].to, payload))
  }

  function Emits(t: Tables, e: Event): seq<Item>
    requires Legal(t, e)
  {
    match e
    case Submit(sub) => [Submitted(sub.requestId, sub.subscriberId, sub.to)]
    case Confirm(id, _, open) =>
      if id in t.inflights && open then [ToldSubscribed(id, t.inflights[id].subscriberId, t.inflights[id].to)] else []
    case Deliver(s, payload, order, _) =>
      if s in t.subscriptions then Notifications(t.subscriptions[s], order, payload) else []
    case Unsubscribe(r, id) => [Unsubscribed(r, id)]
    case Reconnect(drain) => Disconnects(t, drain)
    case Noise => []
  }

  // ---- Message order, judged from the log alone ----

  /** The subscriber and channel of the request's open subscription. */
  function Active(log: seq<Item>, r: RequestId): Option<(SubscriberId, Endpoint)> {
    if log == [] then None
    else
      var before := Active(log[..|log| - 1], r);
      match log[|log| - 1]
      case ToldSubscribed(r', id, to) => if r' == r then Some((id, to)) else before
      case ToldDisconnected(r', _) => if r' == r then None else before
      case Unsubscribed(r', id) => if r' == r && before.Some? && before.value.0 == id then None else before
      case _ => before
  }

  /** The submission of the request that no confirmation has answered yet. */
  function Awaited(log: seq<Item>, r: RequestId): Option<(SubscriberId, Endpoint)> {
    if log == [] then None
    else
      var before := Awaited(log[..|log| - 1], r);
      match log[|log| - 1]
      case Submitted(r', id, to) => if r' == r then Some((id, to)) else before
      case ToldSubscribed(r', _, _) => if r' == r then None else before
      case _ => before
  }

  predicate FitsAfter(log: seq<Item>, item: Item) {
    match item
    case ToldSubscribed(r, id, to) => Awaited(log, r) == Some((id, to))
    case ToldNotification(r, to, _) => Active(log, r).Some? && Active(log, r).value.1 == to
    case ToldDisconnected(r, to) => Active(log, r).Some? && Active(log, r).value.1 == to
    case _ => true
  }

  predicate OrderSafe(log: seq<Item>) {
    log == [] || (OrderSafe(log[..|log| - 1]) && FitsAfter(log[..|log| - 1], log[|log| - 1]))
  }

  lemma Append(log: seq<Item>, item: Item)
    ensures (log + [item])[..|log + [item]| - 1] == log
  {
  }

  /** Position `j` holds the latest Subscribed of `r`, and its subscription has not ended since. */
  ghost predicate OpenSince(log: seq<Item>, r: RequestId, id: SubscriberId, to: Endpoint, j: nat) {
    && j < |log| && log[j] == ToldSubscribed(r, id, to)
    && forall k | j < k < |log| ::
         && !(log[k].ToldSubscribed? && log[k].request == r)
         && !(log[k].ToldDisconnected? && log[k].request == r)
         && log[k] != Unsubscribed(r, id)
  }

  lemma {:induction false} ActiveMeansOpen(log: seq<Item>, r: RequestId) returns (j: nat)
    requires Active(log, r).Some?
    ensures OpenSince(log, r, Active(log, r).value.0, Active(log, r).value.1, j)
  {
    var before, last := log[..|log| - 1], log[|log| - 1];
    if last.ToldSubscribed? && last.request == r {
      j := |log| - 1;
    } else {
      j := ActiveMeansOpen(before, r);
    }
  }

  /** What order safety says message by message: a Notification or a Disconnected for `r`
      goes to the channel of an earlier Subscribed for `r`, with no Disconnected and no
      matching unsubscription in between. */
  lemma {:induction false} OrderSafetyMeans(log: seq<Item>, i: nat) returns (id: SubscriberId, j: nat)
    requires OrderSafe(log) && i < |log| && (log[i].ToldNotification? || log[i].ToldDisconnected?)
    ensures OpenSince(log[..i], log[i].request, id, log[i].to, j)
  {
    if i == |log| - 1 {
      var r := log[i].request;
      id := Active(log[..i], r).value.0;
      j := ActiveMeansOpen(log[..i], r);
    } else {
      var before := log[..|log| - 1];
      assert before[..i] == log[..i] && before[i] == log[i];
      id, j := OrderSafetyMeans(before, i);
    }
  }

  /** Nothing follows the processing of the matching unsubscription. */
  lemma SilentAfterUnsubscribe(log: seq<Item>, j: nat, k: nat, i: nat)
    requires OrderSafe(log) && j < k < i < |log|
    requires log[j].ToldSubscribed? && log[k] == Unsubscribed(log[j].request, log[j].subscriber)
    requires forall m | j < m < i :: !(log[m].ToldSubscribed? && log[m].request == log[j].request)
    ensures !((log[i].ToldNotification? || log[i].ToldDisconnected?) && log[i].request == log[j].request)
  {
    if (log[i].ToldNotification? || log[i].ToldDisconnected?) && log[i].request == log[j].request {
      var id, m := OrderSafetyMeans(log, i);
    }
  }
}
