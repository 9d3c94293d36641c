/** The index invariant of a connection's tables and message-order safety over whole runs. */
module ConnectionRuns {
  import opened RouterTypes
  import opened ConnectionProtocol

  /** No listener set is empty, in-flight subscriptions are filed under their own request id
      and have no listener yet, and every listener is found through its request id. */
  ghost predicate Indexed(t: Tables) {
    && (forall r <- t.inflights :: t.inflights[r].requestId == r && !Listening(t, r))
    && (forall s <- t.subscriptions :: t.subscriptions[s] != map[])
    && (forall s: SubscriptionId, id: SubscriberId | Listens(t, s, id) ::
          var r := At(t, s, id).requestId;
          r in t.requestToSubs && t.requestToSubs[r] == s)
  }

  /** The tables agree with what the log says about open and awaited subscriptions. */
  ghost predicate Agrees(t: Tables, log: seq<Item>) {
    && (forall r <- t.inflights :: Awaited(log, r) == Some((t.inflights[r].subscriberId, t.inflights[r].to)))
    && (forall s: SubscriptionId, id: SubscriberId | Listens(t, s, id) ::
          Active(log, At(t, s, id).requestId) == Some((id, At(t, s, id).to)))
  }

  ghost predicate Inv(t: Tables, log: seq<Item>) {
    Indexed(t) && Agrees(t, log) && OrderSafe(log)
  }

  /** One request has at most one listener. */
  lemma OneListener(t: Tables, log: seq<Item>, s: SubscriptionId, id: SubscriberId,
                    s': SubscriptionId, id': SubscriberId)
    requires Indexed(t) && Agrees(t, log) && Listens(t, s, id) && Listens(t, s', id')
    requires At(t, s, id).requestId == At(t, s', id').requestId
    ensures s == s' && id == id'
  {
  }

  lemma {:induction false} NotificationsFit(log: seq<Item>, items: seq<Item>)
    requires OrderSafe(log)
    requires forall i | 0 <= i < |items| ::
               items[i].ToldNotification? && Active(log, items[i].request).Some? &&
               Active(log, items[i].request).value.1 == items[i].to
    ensures OrderSafe(log + items)
    ensures forall r: RequestId ::
              Active(log + items, r) == Active(log, r) && Awaited(log + items, r) == Awaited(log, r)
  {
    if items == [] {
      assert log + items == log;
    } else {
      var most, last := items[..|items| - 1], items[|items| - 1];
      NotificationsFit(log, most);
      assert log + items == (log + most) + [last];
      Append(log + most, last);
    }
  }

  predicate Mentions(items: seq<Item>, r: RequestId) {
    exists i :: 0 <= i < |items| && items[i].request == r
  }

  lemma {:induction false} DisconnectsFit(log: seq<Item>, items: seq<Item>)
    requires OrderSafe(log)
    requires forall i | 0 <= i < |items| ::
               items[i].ToldDisconnected? && Active(log, items[i].request).Some? &&
               Active(log, items[i].request).value.1 == items[i].to
    requires forall i, j | 0 <= i < j < |items| :: items[i].request != items[j].request
    ensures OrderSafe(log + items)
    ensures forall r: RequestId :: Awaited(log + items, r) == Awaited(log, r)
    ensures forall r: RequestId | !Mentions(items, r) :: Active(log + items, r) == Active(log, r)
  {
    if items == [] {
      assert log + items == log;
    } else {
      var most, last := items[..|items| - 1], items[|items| - 1];
      DisconnectsFit(log, most);
      assert log + items == (log + most) + [last];
      Append(log + most, last);
      assert !Mentions(most, last.request);
      forall r: RequestId | !Mentions(items, r) ensures !Mentions(most, r) && last.request != r {
        assert forall i | 0 <= i < |most| :: most[i] == items[i];
      }
    }
  }

  /** Whether a request is listened to depends on the subscriptions alone. */
  lemma SameListening(t: Tables, t': Tables, r: RequestId)
    requires t'.subscriptions == t.subscriptions
    ensures Listening(t', r) <==> Listening(t, r)
  {
    if Listening(t', r) {
      var s, id :| Listens(t', s, id) && At(t', s, id).requestId == r;
      assert Listens(t, s, id) && At(t, s, id).requestId == r;
    }
    if Listening(t, r) {
      var s, id :| Listens(t, s, id) && At(t, s, id).requestId == r;
      assert Listens(t', s, id) && At(t', s, id).requestId == r;
    }
  }

  lemma SubmitKeepsIndex(t: Tables, e: Event)
    requires Indexed(t) && e.Submit? && Courteous(t, e)
    ensures Indexed(Step(t, e))
  {
    var t' := Step(t, e);
    forall r <- t'.inflights ensures t'.inflights[r].requestId == r && !Listening(t', r) {
      SameListening(t, t', r);
    }
    forall s: SubscriptionId, id: SubscriberId | Listens(t', s, id)
      ensures At(t', s, id).requestId in t'.requestToSubs && t'.requestToSubs[At(t', s, id).requestId] == s
    {
      assert Listens(t, s, id);
    }
  }

  lemma SubmitAgrees(t: Tables, log: seq<Item>, e: Event)
    requires Agrees(t, log) && e.Submit?
    ensures Agrees(Step(t, e), log + Emits(t, e))
  {
    var t', log' := Step(t, e), log + Emits(t, e);
    Append(log, Emits(t, e)[0]);
    forall s: SubscriptionId, id: SubscriberId | Listens(t', s, id)
      ensures Active(log', At(t', s, id).requestId) == Some((id, At(t', s, id).to))
    {
      assert Listens(t, s, id) && Active(log', At(t, s, id).requestId) == Active(log, At(t, s, id).requestId);
    }
  }

  lemma SubmitKeeps(t: Tables, log: seq<Item>, e: Event)
    requires Inv(t, log) && e.Submit? && Courteous(t, e)
    ensures Inv(Step(t, e), log + Emits(t, e))
  {
    Append(log, Emits(t, e)[0]);
    SubmitKeepsIndex(t, e);
    SubmitAgrees(t, log, e);
  }

  /** A confirmation that adds no listener only files the request. */
  lemma UnheardKeeps(t: Tables, log: seq<Item>, e: Event)
    requires Indexed(t) && Agrees(t, log) && e.Confirm? && !(e.id in t.inflights && e.open)
    ensures Indexed(Step(t, e)) && Agrees(Step(t, e), log)
  {
    var t' := Step(t, e);
    forall r <- t'.inflights ensures t'.inflights[r].requestId == r && !Listening(t', r) {
      SameListening(t, t', r);
    }
    forall s: SubscriptionId, id: SubscriberId | Listens(t', s, id)
      ensures var r := At(t', s, id).requestId;
              && r in t'.requestToSubs && t'.requestToSubs[r] == s
              && Active(log, r) == Some((id, At(t', s, id).to))
    {
      assert Listens(t, s, id) && Listening(t, At(t, s, id).requestId);
    }
  }

  /** A confirmation adds the one listener of its request. */
  lemma ConfirmAdds(t: Tables, e: Event)
    requires e.Confirm? && e.id in t.inflights && e.open
    ensures var t', sub := Step(t, e), t.inflights[e.id];
            && Listens(t', e.result, sub.subscriberId)
            && At(t', e.result, sub.subscriberId) == Handle(sub.requestId, sub.to)
            && (forall s: SubscriptionId, id: SubscriberId |
                  Listens(t', s, id) && (s != e.result || id != sub.subscriberId) ::
                  Listens(t, s, id) && At(t', s, id) == At(t, s, id))
            && (forall s <- t'.subscriptions :: s in t.subscriptions && s != e.result ==>
                  t'.subscriptions[s] == t.subscriptions[s])
            && (forall s <- t'.subscriptions :: s in t.subscriptions || s == e.result)
  {
  }

  lemma ConfirmKeepsIndex(t: Tables, e: Event)
    requires Indexed(t) && e.Confirm? && e.id in t.inflights && e.open
    ensures Indexed(Step(t, e))
  {
    var t', sub := Step(t, e), t.inflights[e.id];
    ConfirmAdds(t, e);
    assert !Listening(t, e.id);
    forall r <- t'.inflights ensures !Listening(t', r) { assert !Listening(t, r); }
    forall s <- t'.subscriptions ensures t'.subscriptions[s] != map[] {
      if s == e.result { assert sub.subscriberId in t'.subscriptions[s]; }
    }
  }

  lemma ConfirmKeeps(t: Tables, log: seq<Item>, e: Event)
    requires Inv(t, log) && e.Confirm?
    ensures Inv(Step(t, e), log + Emits(t, e))
  {
    var t' := Step(t, e);
    if e.id !in t.inflights || !e.open {
      assert log + Emits(t, e) == log;
      UnheardKeeps(t, log, e);
    } else {
      Append(log, Emits(t, e)[0]);
      ConfirmAdds(t, e);
      ConfirmKeepsIndex(t, e);
      assert !Listening(t, e.id);
    }
  }

  /** Listeners only leave. */
  ghost predicate Shrinks(t: Tables, t': Tables) {
    && t'.inflights == t.inflights && t'.requestToSubs == t.requestToSubs
    && (forall s <- t'.subscriptions :: t'.subscriptions[s] != map[])
    && (forall s: SubscriptionId, id: SubscriberId | Listens(t', s, id) ::
         Listens(t, s, id) && At(t', s, id) == At(t, s, id))
  }

  lemma PutShrinks(t: Tables, s: SubscriptionId, gone: set<SubscriberId>)
    requires Indexed(t) && s in t.subscriptions
    ensures Shrinks(t, t.(subscriptions := Put(t.subscriptions, s, t.subscriptions[s] - gone)))
  {
  }

  lemma ShrinkKeeps(t: Tables, t': Tables, log: seq<Item>, log': seq<Item>)
    requires Indexed(t) && Agrees(t, log) && Shrinks(t, t')
    requires forall r: RequestId :: Awaited(log', r) == Awaited(log, r)
    requires forall s: SubscriptionId, id: SubscriberId | Listens(t', s, id) ::
               Active(log', At(t', s, id).requestId) == Active(log, At(t', s, id).requestId)
    ensures Indexed(t') && Agrees(t', log')
  {
    forall r <- t'.inflights ensures !Listening(t', r) { assert !Listening(t, r); }
  }

  lemma DeliverKeeps(t: Tables, log: seq<Item>, e: Event)
    requires Inv(t, log) && e.Deliver? && Legal(t, e)
    ensures Inv(Step(t, e), log + Emits(t, e))
  {
    if e.subscription in t.subscriptions {
      var items := Emits(t, e);
      forall i | 0 <= i < |items|
        ensures Active(log, items[i].request).Some? && Active(log, items[i].request).value.1 == items[i].to
      {
        assert e.order[i] in e.order;
        assert Listens(t, e.subscription, e.order[i]);
      }
      NotificationsFit(log, items);
      PutShrinks(t, e.subscription, e.closed);
      ShrinkKeeps(t, Step(t, e), log, log + items);
    } else {
      assert log + Emits(t, e) == log;
    }
  }

  lemma UnsubscribeKeeps(t: Tables, log: seq<Item>, e: Event)
    requires Inv(t, log) && e.Unsubscribe?
    ensures Inv(Step(t, e), log + Emits(t, e))
  {
    var t', r, id := Step(t, e), e.requestId, e.subscriberId;
    Append(log, Unsubscribed(r, id));
    if r in t.requestToSubs && t.requestToSubs[r] in t.subscriptions {
      PutShrinks(t, t.requestToSubs[r], {id});
      assert !Listens(t', t.requestToSubs[r], id);
    }
    ShrinkKeeps(t, t', log, log + [Unsubscribed(r, id)]);
  }

  lemma DistinctDisconnects(t: Tables, log: seq<Item>, e: Event)
    requires Indexed(t) && Agrees(t, log) && e.Reconnect? && Legal(t, e)
    ensures forall i, j | 0 <= i < j < |Emits(t, e)| :: Emits(t, e)[i].request != Emits(t, e)[j].request
  {
    var items := Emits(t, e);
    forall i, j | 0 <= i < j < |items| ensures items[i].request != items[j].request {
      var p, q := e.drain[i], e.drain[j];
      assert Listens(t, p.0, p.1) && Listens(t, q.0, q.1);
      if At(t, p.0, p.1).requestId == At(t, q.0, q.1).requestId {
        OneListener(t, log, p.0, p.1, q.0, q.1);
      }
    }
  }

  lemma ReconnectKeeps(t: Tables, log: seq<Item>, e: Event)
    requires Inv(t, log) && e.Reconnect? && Legal(t, e)
    ensures Inv(Step(t, e), log + Emits(t, e))
  {
    DistinctDisconnects(t, log, e);
    DisconnectsFit(log, Emits(t, e));
  }

  lemma StepKeeps(t: Tables, log: seq<Item>, e: Event)
    requires Inv(t, log) && Legal(t, e) && Courteous(t, e)
    ensures Inv(Step(t, e), log + Emits(t, e))
  {
    match e
    case Submit(_) => SubmitKeeps(t, log, e);
    case Confirm(_, _, _) => ConfirmKeeps(t, log, e);
    case Deliver(_, _, _, _) => DeliverKeeps(t, log, e);
    case Unsubscribe(_, _) => UnsubscribeKeeps(t, log, e);
    case Reconnect(_) => ReconnectKeeps(t, log, e);
    case Noise => assert log + Emits(t, e) == log;
  }

  // ---- Runs ----

  function TablesAfter(run: seq<Event>): Tables {
    if run == [] then EMPTY else Step(TablesAfter(run[..|run| - 1]), run[|run| - 1])
  }

  predicate IsRun(run: seq<Event>) {
    run == [] || (IsRun(run[..|run| - 1]) && Legal(TablesAfter(run[..|run| - 1]), run[|run| - 1]))
  }

  function LogAfter(run: seq<Event>): seq<Item>
    requires IsRun(run)
  {
    if run == [] then []
    else LogAfter(run[..|run| - 1]) + Emits(TablesAfter(run[..|run| - 1]), run[|run| - 1])
  }

  ghost predicate CourteousRun(run: seq<Event>) {
    run == [] || (CourteousRun(run[..|run| - 1]) && Courteous(TablesAfter(run[..|run| - 1]), run[|run| - 1]))
  }

  /** Over every run, whatever the upstream sends, the tables stay linked and each message
      is in order. */
  lemma {:induction false} RunKeeps(run: seq<Event>)
    requires IsRun(run) && CourteousRun(run)
    ensures Inv(TablesAfter(run), LogAfter(run))
  {
    if run != [] {
      var before := run[..|run| - 1];
      RunKeeps(before);
      StepKeeps(TablesAfter(before), LogAfter(before), run[|run| - 1]);
    }
  }

  /** Each Notification or Disconnected of a run goes to the channel that got the request's
      Subscribed, with neither a Disconnected nor the matching unsubscription in between. */
  lemma {:induction false} MessagesInOrder(run: seq<Event>, i: nat) returns (id: SubscriberId, j: nat)
    requires IsRun(run) && CourteousRun(run)
    requires i < |LogAfter(run)| && (LogAfter(run)[i].ToldNotification? || LogAfter(run)[i].ToldDisconnected?)
    ensures OpenSince(LogAfter(run)[..i], LogAfter(run)[i].request, id, LogAfter(run)[i].to, j)
  {
    RunKeeps(run);
    id, j := OrderSafetyMeans(LogAfter(run), i);
  }

  /** A reconnect sends exactly one Disconnected per listened-to request, to its listener's
      channel, and leaves both confirmed tables empty; in-flight requests stay. */
  lemma ReconnectTellsEachOnce(t: Tables, log: seq<Item>, e: Event)
    requires Inv(t, log) && e.Reconnect? && Legal(t, e)
    ensures forall s: SubscriptionId, id: SubscriberId | Listens(t, s, id) ::
              ToldDisconnected(At(t, s, id).requestId, At(t, s, id).to) in Emits(t, e)
    ensures forall i, j | 0 <= i < j < |Emits(t, e)| :: Emits(t, e)[i].request != Emits(t, e)[j].request
    ensures forall item <- Emits(t, e) :: item.ToldDisconnected? && Listening(t, item.request)
    ensures Step(t, e) == Tables(t.inflights, map[], map[])
  {
    var items := Emits(t, e);
    DistinctDisconnects(t, log, e);
    forall s: SubscriptionId, id: SubscriberId | Listens(t, s, id)
      ensures ToldDisconnected(At(t, s, id).requestId, At(t, s, id).to) in items
    {
      assert (s, id) in e.drain;
      var i :| 0 <= i < |e.drain| && e.drain[i] == (s, id);
      assert items[i] in items;
    }
  }

  /** Who listens after an event: a confirmation adds its subscriber, a delivery drops the
      closed channels, an unsubscription its one listener, a reconnect everybody. */
  lemma ListenersAfter(t: Tables, e: Event, s: SubscriptionId, id: SubscriberId)
    ensures Listens(Step(t, e), s, id) <==>
            match e
            case Submit(_) => Listens(t, s, id)
            case Confirm(r, result, open) =>
              Listens(t, s, id) || (r in t.inflights && open && s == result && id == t.inflights[r].subscriberId)
            case Deliver(sub, _, _, closed) => Listens(t, s, id) && (s != sub || id !in closed)
            case Unsubscribe(r, gone) =>
              Listens(t, s, id) && (r !in t.requestToSubs || s != t.requestToSubs[r] || id != gone)
            case Reconnect(_) => false
            case Noise => Listens(t, s, id)
  {
    if e.Deliver? && e.subscription in t.subscriptions {
      assert id in t.subscriptions[e.subscription] - e.closed <==>
               id in t.subscriptions[e.subscription] && id !in e.closed;
    }
    if e.Unsubscribe? && e.requestId in t.requestToSubs && t.requestToSubs[e.requestId] in t.subscriptions {
      var ls := t.subscriptions[t.requestToSubs[e.requestId]];
      assert id in ls - {e.subscriberId} <==> id in ls && id != e.subscriberId;
    }
  }

  /** The matching unsubscription takes effect: nobody listens for the request any more. */
  lemma UnsubscribeStops(t: Tables, log: seq<Item>, r: RequestId, id: SubscriberId)
    requires Inv(t, log) && Active(log, r).Some? && Active(log, r).value.0 == id
    ensures !Listening(Step(t, Unsubscribe(r, id)), r)
  {
    UnsubscribeKeeps(t, log, Unsubscribe(r, id));
    Append(log, Unsubscribed(r, id));
    var t' := Step(t, Unsubscribe(r, id));
    assert Active(log + [Unsubscribed(r, id)], r).None?;
    assert forall s: SubscriptionId, i: SubscriberId | Listens(t', s, i) ::
        Active(log + [Unsubscribed(r, id)], At(t', s, i).requestId).Some?;
  }

  /** A delivery notifies every listener of the subscription exactly once. */
  lemma DeliveryTellsEachOnce(t: Tables, e: Event, id: SubscriberId) returns (i: nat)
    requires e.Deliver? && Legal(t, e) && Listens(t, e.subscription, id)
    ensures var items, h := Emits(t, e), At(t, e.subscription, id);
            && i < |items| == |e.order| && e.order[i] == id
            && items[i] == ToldNotification(h.requestId, h.to, e.payload)
            && (forall j | 0 <= j < |items| && e.order[j] == id :: j == i)
  {
    assert id in e.order;
    i :| 0 <= i < |e.order| && e.order[i] == id;
  }

  // ---- The demand on clients cannot be dropped ----

  lemma {:induction false} FreshId(used: set<nat>) returns (n: nat)
    ensures forall x <- used :: x < n
  {
    if used == {} {
      n := 0;
    } else {
      var x :| x in used;
      var m := FreshId(used - {x});
      n := if x < m then m else x + 1;
      assert forall y <- used :: y == x || y in used - {x};
    }
  }

  lemma {:induction false} SomeOrder(ids: set<nat>) returns (order: seq<nat>)
    ensures Enumerates(order, ids)
  {
    if ids == {} {
      order := [];
    } else {
      var x :| x in ids;
      var rest := SomeOrder(ids - {x});
      order := rest + [x];
    }
  }

  lemma {:induction false} EachFits(log: seq<Item>, i: nat)
    requires OrderSafe(log) && i < |log|
    ensures FitsAfter(log[..i], log[i])
  {
    if i < |log| - 1 {
      var before := log[..|log| - 1];
      assert before[..i] == log[..i] && before[i] == log[i];
      EachFits(before, i);
    }
  }

  lemma {:induction false} NotificationsOpenNothing(log: seq<Item>, items: seq<Item>, r: RequestId)
    requires Active(log, r).None? && forall i | 0 <= i < |items| :: items[i].ToldNotification?
    ensures Active(log + items, r).None?
  {
    if items == [] {
      assert log + items == log;
    } else {
      var most, last := items[..|items| - 1], items[|items| - 1];
      NotificationsOpenNothing(log, most, r);
      assert log + items == (log + most) + [last];
      Append(log + most, last);
    }
  }

  /** A second confirmation files the request elsewhere; the old listener stays behind. */
  lemma OldListenerStays(t: Tables, sub: Subscription, s: SubscriptionId, id: SubscriberId, other: SubscriptionId)
    requires Indexed(t) && Listens(t, s, id) && At(t, s, id).requestId == sub.requestId
    requires other !in t.subscriptions
    ensures var t2 := Step(Step(t, Submit(sub)), Confirm(sub.requestId, other, true));
            var t3 := Step(t2, Unsubscribe(sub.requestId, sub.subscriberId));
            s in t3.subscriptions && t3.subscriptions[s] == t.subscriptions[s]
  {
  }

  /** Resubmitting a request that is listened to is never harmless: from every good state the
      upstream can then make the connection notify the request after its unsubscription. */
  lemma DiscourtesyBreaksOrder(t: Tables, log: seq<Item>, sub: Subscription)
    returns (confirm: Event, unsubscribe: Event, deliver: Event)
    requires Inv(t, log) && !Courteous(t, Submit(sub))
    ensures var t1 := Step(t, Submit(sub));
            var t2 := Step(t1, confirm);
            var t3 := Step(t2, unsubscribe);
            && Legal(t1, confirm) && Legal(t2, unsubscribe) && Legal(t3, deliver)
            && unsubscribe == Unsubscribe(sub.requestId, sub.subscriberId)
            && !OrderSafe(log + Emits(t, Submit(sub)) + Emits(t1, confirm) + Emits(t2, unsubscribe) +
                          Emits(t3, deliver))
  {
    var r := sub.requestId;
    var s: SubscriptionId, id: SubscriberId :| Listens(t, s, id) && At(t, s, id).requestId == r;
    var other := FreshId(t.subscriptions.Keys);
    var order := SomeOrder(t.subscriptions[s].Keys);
    confirm, unsubscribe := Confirm(r, other, true), Unsubscribe(r, sub.subscriberId);
    deliver := Deliver(s, 0, order, {});
    OldListenerStays(t, sub, s, id, other);
    var told := log + [Submitted(r, sub.subscriberId, sub.to)] + [ToldSubscribed(r, sub.subscriberId, sub.to)];
    Append(log + [Submitted(r, sub.subscriberId, sub.to)], ToldSubscribed(r, sub.subscriberId, sub.to));
    var ended := told + [Unsubscribed(r, sub.subscriberId)];
    Append(told, Unsubscribed(r, sub.subscriberId));
    var i :| 0 <= i < |order| && order[i] == id;
    LateNotification(ended, t.subscriptions[s], order, i);
  }

  lemma LateNotification(log: seq<Item>, ls: Listeners, order: seq<SubscriberId>, i: nat)
    requires (forall id <- order :: id in ls) && i < |order|
    requires Active(log, ls[order[i]].requestId).None?
    ensures !OrderSafe(log + Notifications(ls, order, 0))
  {
    var items := Notifications(ls, order, 0);
    var all := log + items;
    NotificationsOpenNothing(log, items[..i], items[i].request);
    assert all[..|log| + i] == log + items[..i];
    assert all[|log| + i] == items[i];
    assert !FitsAfter(all[..|log| + i], items[i]);
    if OrderSafe(all) { EachFits(all, |log| + i); }
  }
}
