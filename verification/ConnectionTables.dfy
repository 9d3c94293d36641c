/** What the index tables of a connection hold after a run, told from the events alone. */
module ConnectionTables {
  import opened RouterTypes
  import opened ConnectionProtocol
  import opened ConnectionRuns

  predicate SubmitsAs(e: Event, r: RequestId) {
    e.Submit? && e.sub.requestId == r
  }

  /** Event `i` submitted the request, and it was neither confirmed nor submitted again since. */
  ghost predicate InFlightSince(run: seq<Event>, sub: Subscription, i: nat) {
    && i < |run| && run[i] == Submit(sub)
    && forall j | i < j < |run| ::
         !SubmitsAs(run[j], sub.requestId) && !(run[j].Confirm? && run[j].id == sub.requestId)
  }

  lemma InFlightBefore(run: seq<Event>, sub: Subscription, i: nat)
    requires i < |run| - 1
    ensures InFlightSince(run, sub, i) <==>
              && InFlightSince(run[..|run| - 1], sub, i)
              && !SubmitsAs(run[|run| - 1], sub.requestId)
              && !(run[|run| - 1].Confirm? && run[|run| - 1].id == sub.requestId)
  {
    assert forall j | 0 <= j < |run| - 1 :: run[..|run| - 1][j] == run[j];
  }

  /** A request is in flight exactly from its submission to its confirmation. */
  lemma {:induction false} InFlightExactly(run: seq<Event>, sub: Subscription)
    ensures var t, r := TablesAfter(run), sub.requestId;
            r in t.inflights && t.inflights[r] == sub <==> exists i :: InFlightSince(run, sub, i)
  {
    if run != [] {
      var before, last := run[..|run| - 1], run[|run| - 1];
      InFlightExactly(before, sub);
      assert InFlightSince(run, sub, |run| - 1) <==> last == Submit(sub);
      forall i: nat | i < |before|
        ensures InFlightSince(run, sub, i) <==>
                  && InFlightSince(before, sub, i) && !SubmitsAs(last, sub.requestId)
                  && !(last.Confirm? && last.id == sub.requestId)
      {
        InFlightBefore(run, sub, i);
      }
    }
  }

  /** Event `i` is a confirmation of a request that is in flight. */
  predicate ConfirmsAt(run: seq<Event>, i: nat, r: RequestId) {
    i < |run| && run[i].Confirm? && run[i].id == r && r in TablesAfter(run[..i]).inflights
  }

  /** Event `i` confirmed the request under this subscription id, and neither another
      confirmation nor a reconnect came since. */
  ghost predicate FiledSince(run: seq<Event>, r: RequestId, s: SubscriptionId, i: nat) {
    && ConfirmsAt(run, i, r) && run[i].result == s
    && forall j | i < j < |run| :: !ConfirmsAt(run, j, r) && !run[j].Reconnect?
  }

  lemma FiledBefore(run: seq<Event>, r: RequestId, s: SubscriptionId, i: nat)
    requires i < |run| - 1
    ensures FiledSince(run, r, s, i) <==>
              && FiledSince(run[..|run| - 1], r, s, i)
              && !ConfirmsAt(run, |run| - 1, r) && !run[|run| - 1].Reconnect?
  {
    var before := run[..|run| - 1];
    forall j: nat | j < |before| ensures ConfirmsAt(before, j, r) <==> ConfirmsAt(run, j, r) {
      assert before[..j] == run[..j];
    }
    assert forall j | 0 <= j < |before| :: before[j] == run[j];
  }

  /** A request is filed under a subscription id exactly from its confirmation to the next
      reconnect, whether or not its channel accepted the message. */
  lemma {:induction false} FiledExactly(run: seq<Event>, r: RequestId, s: SubscriptionId)
    ensures var t := TablesAfter(run);
            r in t.requestToSubs && t.requestToSubs[r] == s <==> exists i :: FiledSince(run, r, s, i)
  {
    if run != [] {
      var before, last := run[..|run| - 1], run[|run| - 1];
      FiledExactly(before, r, s);
      assert FiledSince(run, r, s, |run| - 1) <==> ConfirmsAt(run, |run| - 1, r) && last.result == s;
      forall i: nat | i < |before|
        ensures FiledSince(run, r, s, i) <==>
                  FiledSince(before, r, s, i) && !ConfirmsAt(run, |run| - 1, r) && !last.Reconnect?
      {
        FiledBefore(run, r, s, i);
      }
    }
  }
}
