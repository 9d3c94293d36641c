/** When a request that was told Subscribed is still listened to, and when it is lost without
    being told. */
module ConnectionLosses {
  import opened RouterTypes
  import opened ConnectionProtocol
  import opened ConnectionRuns

  /** The event takes this listener away although its own subscription has not ended: its
      channel turned out to be closed, the same subscriber was confirmed for another request
      under the same subscription, or it unsubscribed another request of that subscription. */
  predicate TakesAway(t: Tables, e: Event, s: SubscriptionId, id: SubscriberId)
    requires Listens(t, s, id)
  {
    match e
    case Deliver(sub, _, _, closed) => s == sub && id in closed
    case Confirm(q, result, open) => q in t.inflights && open && s == result && id == t.inflights[q].subscriberId
    case Unsubscribe(q, gone) =>
      q != At(t, s, id).requestId && q in t.requestToSubs && s == t.requestToSubs[q] && id == gone
    case _ => false
  }

  ghost predicate Loses(t: Tables, e: Event, r: RequestId) {
    exists s, id :: Listens(t, s, id) && At(t, s, id).requestId == r && TakesAway(t, e, s, id)
  }

  /** The event tells the request Subscribed. */
  predicate Confirms(t: Tables, e: Event, r: RequestId) {
    e.Confirm? && e.id == r && e.open && r in t.inflights
  }

  /** The request lost its listener since it was last told Subscribed. */
  ghost predicate Lost(run: seq<Event>, r: RequestId) {
    && run != []
    && var before, e := run[..|run| - 1], run[|run| - 1];
       !Confirms(TablesAfter(before), e, r) && (Lost(before, r) || Loses(TablesAfter(before), e, r))
  }

  /** A listener after an event was there before, or is the one just confirmed. */
  lemma HandleAfter(t: Tables, e: Event, s: SubscriptionId, id: SubscriberId)
    requires Listens(Step(t, e), s, id)
    ensures (Listens(t, s, id) && At(Step(t, e), s, id) == At(t, s, id)) ||
            (e.Confirm? && e.id in t.inflights && e.open && s == e.result && id == t.inflights[e.id].subscriberId &&
             At(Step(t, e), s, id).requestId == t.inflights[e.id].requestId)
  {
  }

  lemma StillListens(t: Tables, log: seq<Item>, e: Event, r: RequestId)
    requires Inv(t, log) && Legal(t, e) && Courteous(t, e) && !Confirms(t, e, r) && Listening(Step(t, e), r)
    ensures Listening(t, r) && !Loses(t, e, r)
  {
    var t' := Step(t, e);
    var s, id :| Listens(t', s, id) && At(t', s, id).requestId == r;
    HandleAfter(t, e, s, id);
    ListenersAfter(t, e, s, id);
    assert Listens(t, s, id) && At(t, s, id).requestId == r;
    assert Listening(t, r);
    forall s2, id2 | Listens(t, s2, id2) && At(t, s2, id2).requestId == r ensures !TakesAway(t, e, s2, id2) {
      OneListener(t, log, s, id, s2, id2);
    }
  }

  lemma {:induction false} DisconnectsClose(log: seq<Item>, items: seq<Item>, r: RequestId)
    requires forall i | 0 <= i < |items| :: items[i].ToldDisconnected?
    ensures Active(log + items, r) == if Mentions(items, r) then None else Active(log, r)
  {
    if items == [] {
      assert log + items == log;
    } else {
      var most, last := items[..|items| - 1], items[|items| - 1];
      DisconnectsClose(log, most, r);
      assert log + items == (log + most) + [last];
      Append(log + most, last);
      assert Mentions(items, r) <==> Mentions(most, r) || last.request == r by {
        if Mentions(most, r) {
          var i :| 0 <= i < |most| && most[i].request == r;
          assert items[i].request == r;
        }
        if last.request == r { assert items[|items| - 1].request == r; }
      }
    }
  }

  lemma {:induction false} NotificationsKeep(log: seq<Item>, items: seq<Item>, r: RequestId)
    requires forall i | 0 <= i < |items| :: items[i].ToldNotification?
    ensures Active(log + items, r) == Active(log, r)
  {
    if items == [] {
      assert log + items == log;
    } else {
      var most, last := items[..|items| - 1], items[|items| - 1];
      NotificationsKeep(log, most, r);
      assert log + items == (log + most) + [last];
      Append(log + most, last);
    }
  }

  /** What an event does to the open subscription of a request it does not confirm. */
  lemma ActiveAfter(t: Tables, log: seq<Item>, e: Event, r: RequestId)
    requires Legal(t, e) && !Confirms(t, e, r)
    ensures Active(log + Emits(t, e), r) ==
            if e.Reconnect? && Mentions(Emits(t, e), r) then None
            else if e.Unsubscribe? && e.requestId == r && Active(log, r).Some? &&
                    Active(log, r).value.0 == e.subscriberId then None
            else Active(log, r)
  {
    var items := Emits(t, e);
    if e.Reconnect? {
      DisconnectsClose(log, items, r);
    } else if e.Deliver? {
      NotificationsKeep(log, items, r);
    } else if items == [] {
      assert log + items == log;
    } else {
      assert items == [items[0]];
      Append(log, items[0]);
    }
  }

  lemma StaysListening(t: Tables, log: seq<Item>, e: Event, r: RequestId)
    requires Inv(t, log) && Legal(t, e) && !Confirms(t, e, r)
    requires Listening(t, r) && !Loses(t, e, r) && Active(log + Emits(t, e), r).Some?
    ensures Listening(Step(t, e), r)
  {
    var t' := Step(t, e);
    var s, id :| Listens(t, s, id) && At(t, s, id).requestId == r;
    assert !TakesAway(t, e, s, id);
    ActiveAfter(t, log, e, r);
    if e.Reconnect? { DrainedIsMentioned(t, e, s, id); }
    ListenersAfter(t, e, s, id);
    HandleAfter(t, e, s, id);
  }

  lemma DrainedIsMentioned(t: Tables, e: Event, s: SubscriptionId, id: SubscriberId)
    requires e.Reconnect? && Legal(t, e) && Listens(t, s, id)
    ensures Mentions(Emits(t, e), At(t, s, id).requestId)
  {
    assert (s, id) in e.drain;
    var i :| 0 <= i < |e.drain| && e.drain[i] == (s, id);
    assert Emits(t, e)[i].request == At(t, s, id).requestId;
  }

  lemma ConfirmedListens(t: Tables, log: seq<Item>, e: Event, r: RequestId)
    requires Inv(t, log) && Confirms(t, e, r)
    ensures Listening(Step(t, e), r)
  {
    ConfirmAdds(t, e);
    assert Listens(Step(t, e), e.result, t.inflights[r].subscriberId);
  }

  lemma ListeningIsActive(t: Tables, log: seq<Item>, r: RequestId)
    requires Agrees(t, log) && Listening(t, r)
    ensures Active(log, r).Some?
  {
  }

  /** Whoever was told Subscribed and neither Disconnected nor unsubscribed since is listened
      to, exactly unless its listener was taken away behind its back. */
  lemma {:induction false} ListensUnlessLost(run: seq<Event>, r: RequestId)
    requires IsRun(run) && CourteousRun(run)
    ensures Listening(TablesAfter(run), r) <==> Active(LogAfter(run), r).Some? && !Lost(run, r)
  {
    RunKeeps(run);
    if run != [] {
      var before, e := run[..|run| - 1], run[|run| - 1];
      var t, log := TablesAfter(before), LogAfter(before);
      RunKeeps(before);
      ListensUnlessLost(before, r);
      ListeningStep(t, log, e, r);
    }
  }

  lemma ListeningStep(t: Tables, log: seq<Item>, e: Event, r: RequestId)
    requires Inv(t, log) && Legal(t, e) && Courteous(t, e)
    ensures Confirms(t, e, r) ==> Listening(Step(t, e), r) && Active(log + Emits(t, e), r).Some?
    ensures !Confirms(t, e, r) && Active(log + Emits(t, e), r).Some? ==> Active(log, r).Some?
    ensures !Confirms(t, e, r) ==>
              (Listening(Step(t, e), r) <==> Listening(t, r) && !Loses(t, e, r) && Active(log + Emits(t, e), r).Some?)
  {
    StepKeeps(t, log, e);
    if Confirms(t, e, r) {
      ConfirmedListens(t, log, e, r);
      ListeningIsActive(Step(t, e), log + Emits(t, e), r);
    } else {
      ActiveAfter(t, log, e, r);
      if Listening(Step(t, e), r) {
        StillListens(t, log, e, r);
        ListeningIsActive(Step(t, e), log + Emits(t, e), r);
      }
      if Listening(t, r) && !Loses(t, e, r) && Active(log + Emits(t, e), r).Some? { StaysListening(t, log, e, r); }
    }
  }

  /** It happens: two requests of one subscriber are confirmed under one subscription id. */
  lemma {:induction false} OverwrittenIsLost(id: SubscriberId, to: Endpoint, s: SubscriptionId)
    returns (run: seq<Event>)
    ensures IsRun(run) && CourteousRun(run)
    ensures Active(LogAfter(run), 1).Some? && !Listening(TablesAfter(run), 1)
  {
    var one, two := Subscription(1, id, to), Subscription(2, id, to);
    run := Extend([], Submit(one));
    run := Extend(run, Submit(two));
    run := Extend(run, Confirm(1, s, true));
    var t, log := TablesAfter(run), LogAfter(run);
    RunKeeps(run);
    assert Listens(t, s, id) && At(t, s, id).requestId == 1;
    ListeningStep(t, log, Confirm(2, s, true), 1);
    run := Extend(run, Confirm(2, s, true));
    assert TakesAway(t, Confirm(2, s, true), s, id);
    ListeningIsActive(t, log, 1);
    ActiveAfter(t, log, Confirm(2, s, true), 1);
  }

  lemma {:induction false} Extend(run: seq<Event>, e: Event) returns (longer: seq<Event>)
    requires IsRun(run) && CourteousRun(run) && Legal(TablesAfter(run), e) && Courteous(TablesAfter(run), e)
    ensures longer == run + [e] && IsRun(longer) && CourteousRun(longer)
    ensures TablesAfter(longer) == Step(TablesAfter(run), e)
    ensures LogAfter(longer) == LogAfter(run) + Emits(TablesAfter(run), e)
  {
    longer := run + [e];
    assert longer[..|longer| - 1] == run;
  }
}
