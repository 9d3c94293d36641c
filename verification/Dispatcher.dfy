/** The subscription dispatcher's table of upstreams and its readiness signal. */
module Dispatcher {
  import opened RouterTypes

  type Url = nat
  type Pool = nat

  /** `Request` carries whether the upstream's channel takes it; `Connected` is a finished
      connection attempt together with the pool it made. */
  datatype Event =
    | Upstream(url: Url, online: bool)
    | Request(url: Url, taken: bool)
    | Connected(url: Url, pool: Pool)

  /** `armed` is whether the readiness signal is still held; `fired` counts how often it was given. */
  datatype Hub = Hub(upstreams: map<Url, Pool>, connecting: multiset<Url>, armed: bool, fired: nat)

  function Start(armed: bool): Hub {
    Hub(map[], multiset{}, armed, 0)
  }

  predicate Legal(h: Hub, e: Event) {
    e.Connected? ==> e.url in h.connecting
  }

  function Step(h: Hub, e: Event): Hub
    requires Legal(h, e)
  {
    match e
    case Upstream(u, online) =>
      if !online then h.(upstreams := h.upstreams - {u})
      else if u in h.upstreams then h
      else h.(connecting := h.connecting + multiset{u})
    case Request(u, taken) =>
      if u in h.upstreams && !taken then h.(upstreams := h.upstreams - {u}) else h
    case Connected(u, pool) =>
      var left := h.connecting - multiset{u};
      var h' := h.(upstreams := h.upstreams[u := pool], connecting := left);
      if |left| == 0 && h.armed then h'.(armed := false, fired := h.fired + 1) else h'
  }

  predicate IsRun(armed: bool, run: seq<Event>)
    decreases |run|, 0
  {
    run == [] || (IsRun(armed, run[..|run| - 1]) && Legal(After(armed, run[..|run| - 1]), run[|run| - 1]))
  }

  function After(armed: bool, run: seq<Event>): Hub
    requires IsRun(armed, run)
    decreases |run|, 1
  {
    if run == [] then Start(armed) else Step(After(armed, run[..|run| - 1]), run[|run| - 1])
  }

  /** A send to the upstream failed at this event. */
  predicate SendFails(armed: bool, run: seq<Event>, i: nat, u: Url)
    requires IsRun(armed, run) && i < |run|
  {
    PrefixIsRun(armed, run, i);
    run[i] == Request(u, false) && u in After(armed, run[..i]).upstreams
  }

  lemma {:induction false} PrefixIsRun(armed: bool, run: seq<Event>, n: nat)
    requires IsRun(armed, run) && n <= |run|
    ensures IsRun(armed, run[..n])
  {
    if n < |run| {
      PrefixIsRun(armed, run[..|run| - 1], n);
      assert run[..|run| - 1][..n] == run[..n];
    } else {
      assert run[..n] == run;
    }
  }

  /** Its last processed state is online, announced at event `i`, and no send has failed since. */
  ghost predicate OnlineSince(armed: bool, run: seq<Event>, u: Url, i: nat)
    requires IsRun(armed, run)
  {
    && i < |run| && run[i] == Upstream(u, true)
    && forall j | i < j < |run| :: run[j] != Upstream(u, false) && !SendFails(armed, run, j, u)
  }

  predicate Known(h: Hub, u: Url) {
    u in h.upstreams || u in h.connecting
  }

  /** Only an offline state or a failed send makes a known upstream unknown. */
  lemma KnownStep(h: Hub, e: Event, u: Url)
    requires Legal(h, e) && e != Upstream(u, false) && !(e == Request(u, false) && u in h.upstreams)
    requires Known(h, u) || e == Upstream(u, true)
    ensures Known(Step(h, e), u)
  {
  }

  lemma {:induction false} OnlineBefore(armed: bool, run: seq<Event>, u: Url, i: nat)
    requires IsRun(armed, run) && OnlineSince(armed, run, u, i) && i < |run| - 1 && IsRun(armed, run[..|run| - 1])
    ensures OnlineSince(armed, run[..|run| - 1], u, i)
  {
    var before := run[..|run| - 1];
    forall j | i < j < |before| ensures before[j] != Upstream(u, false) && !SendFails(armed, before, j, u) {
      assert before[..j] == run[..j];
      assert !SendFails(armed, run, j, u);
    }
  }

  /** An upstream that is online is registered or still being connected to, at every moment. */
  lemma {:induction false} OnlineIsKnown(armed: bool, run: seq<Event>, u: Url, i: nat)
    requires IsRun(armed, run) && OnlineSince(armed, run, u, i)
    ensures Known(After(armed, run), u)
  {
    var before, last := run[..|run| - 1], run[|run| - 1];
    if i < |run| - 1 {
      OnlineBefore(armed, run, u, i);
      OnlineIsKnown(armed, before, u, i);
      assert !SendFails(armed, run, |run| - 1, u);
    }
    KnownStep(After(armed, before), last, u);
  }

  // ---- When an offline upstream comes back ----

  /** Only an online state makes an unknown upstream known. */
  lemma UnknownStep(h: Hub, e: Event, u: Url)
    requires Legal(h, e) && !Known(h, u) && e != Upstream(u, true)
    ensures !Known(Step(h, e), u)
  {
  }

  lemma {:induction false} Append(armed: bool, run: seq<Event>, e: Event)
    requires IsRun(armed, run) && Legal(After(armed, run), e)
    ensures IsRun(armed, run + [e]) && After(armed, run + [e]) == Step(After(armed, run), e)
  {
    assert (run + [e])[..|run + [e]| - 1] == run;
  }

  /** The upstream is not announced online. */
  predicate Unannounced(more: seq<Event>, u: Url) {
    forall i | 0 <= i < |more| :: more[i] != Upstream(u, true)
  }

  lemma {:induction false} UnknownStays(armed: bool, run: seq<Event>, more: seq<Event>, u: Url)
    requires IsRun(armed, run) && IsRun(armed, run + more)
    requires !Known(After(armed, run), u) && Unannounced(more, u)
    ensures !Known(After(armed, run + more), u)
  {
    if more == [] {
      assert run + more == run;
    } else {
      var most, last := more[..|more| - 1], more[|more| - 1];
      assert (run + more)[..|run + more| - 1] == run + most;
      UnknownStays(armed, run, most, u);
      UnknownStep(After(armed, run + most), last, u);
    }
  }

  /** Some continuation registers the upstream again although it was not announced online. */
  ghost predicate ComesBack(armed: bool, run: seq<Event>, u: Url) {
    exists more :: Unannounced(more, u) && IsRun(armed, run + more) && u in After(armed, run + more).upstreams
  }

  /** An upstream that has gone offline stays out until it is announced again, exactly unless
      an attempt to connect to it was still pending when it went. */
  lemma {:induction false} OfflineStaysOut(armed: bool, run: seq<Event>, u: Url)
    requires IsRun(armed, run)
    ensures IsRun(armed, run + [Upstream(u, false)])
    ensures ComesBack(armed, run + [Upstream(u, false)], u) <==> u in After(armed, run).connecting
  {
    Append(armed, run, Upstream(u, false));
    var gone := run + [Upstream(u, false)];
    if u in After(armed, run).connecting {
      Append(armed, gone, Connected(u, 0));
      var more := [Connected(u, 0)];
      assert u in After(armed, gone + more).upstreams;
    } else {
      forall more | Unannounced(more, u) && IsRun(armed, gone + more)
        ensures u !in After(armed, gone + more).upstreams
      {
        UnknownStays(armed, gone, more, u);
      }
    }
  }

  // ---- Exactly who is registered, and who is being connected to ----

  /** Event `i` registered the upstream with this pool, and nothing replaced or removed it since. */
  ghost predicate RegisteredSince(armed: bool, run: seq<Event>, u: Url, pool: Pool, i: nat)
    requires IsRun(armed, run)
  {
    && i < |run| && run[i] == Connected(u, pool)
    && forall j | i < j < |run| ::
         && !(run[j].Connected? && run[j].url == u)
         && run[j] != Upstream(u, false)
         && !SendFails(armed, run, j, u)
  }

  lemma {:induction false} SendFailsBefore(armed: bool, run: seq<Event>, j: nat, u: Url)
    requires IsRun(armed, run) && j < |run| - 1 && IsRun(armed, run[..|run| - 1])
    ensures SendFails(armed, run[..|run| - 1], j, u) <==> SendFails(armed, run, j, u)
  {
    assert run[..|run| - 1][..j] == run[..j];
  }

  lemma {:induction false} RegisteredBefore(armed: bool, run: seq<Event>, u: Url, pool: Pool, i: nat)
    requires IsRun(armed, run) && i < |run| - 1 && IsRun(armed, run[..|run| - 1])
    ensures RegisteredSince(armed, run, u, pool, i) <==>
              RegisteredSince(armed, run[..|run| - 1], u, pool, i) && !Unregisters(armed, run, u)
  {
    var before := run[..|run| - 1];
    forall j: nat | j < |before| ensures SendFails(armed, before, j, u) <==> SendFails(armed, run, j, u) {
      SendFailsBefore(armed, run, j, u);
    }
    assert forall j | 0 <= j < |before| :: before[j] == run[j];
  }

  /** The last event replaces or removes the upstream. */
  predicate Unregisters(armed: bool, run: seq<Event>, u: Url)
    requires IsRun(armed, run) && run != []
  {
    var last := run[|run| - 1];
    (last.Connected? && last.url == u) || last == Upstream(u, false) || SendFails(armed, run, |run| - 1, u)
  }

  lemma RegisteredStep(h: Hub, e: Event, u: Url, pool: Pool)
    requires Legal(h, e)
    ensures var h' := Step(h, e);
            u in h'.upstreams && h'.upstreams[u] == pool <==>
              e == Connected(u, pool) ||
              (u in h.upstreams && h.upstreams[u] == pool && !(e.Connected? && e.url == u) &&
               e != Upstream(u, false) && e != Request(u, false))
  {
  }

  /** An upstream is registered with a pool exactly if an attempt to connect to it ended with
      that pool, and since then no other has, it has not gone offline and no send has failed. */
  lemma {:induction false} RegisteredExactly(armed: bool, run: seq<Event>, u: Url, pool: Pool)
    requires IsRun(armed, run)
    ensures var h := After(armed, run);
            u in h.upstreams && h.upstreams[u] == pool <==> exists i :: RegisteredSince(armed, run, u, pool, i)
  {
    if run != [] {
      var before, last := run[..|run| - 1], run[|run| - 1];
      RegisteredExactly(armed, before, u, pool);
      RegisteredStep(After(armed, before), last, u, pool);
      assert RegisteredSince(armed, run, u, pool, |run| - 1) <==> last == Connected(u, pool);
      forall i: nat | i < |before|
        ensures RegisteredSince(armed, run, u, pool, i) <==>
                  RegisteredSince(armed, before, u, pool, i) && !Unregisters(armed, run, u)
      {
        RegisteredBefore(armed, run, u, pool, i);
      }
    }
  }

  /** Attempts started so far: announcements of the upstream while it was not registered. */
  function Attempts(armed: bool, run: seq<Event>, u: Url): nat
    requires IsRun(armed, run)
  {
    if run == [] then 0
    else
      var before := run[..|run| - 1];
      Attempts(armed, before, u) +
      if run[|run| - 1] == Upstream(u, true) && u !in After(armed, before).upstreams then 1 else 0
  }

  function Finished(run: seq<Event>, u: Url): nat {
    if run == [] then 0
    else
      var last := run[|run| - 1];
      Finished(run[..|run| - 1], u) + if last.Connected? && last.url == u then 1 else 0
  }

  /** An upstream is being connected to as often as it was announced unregistered and the
      attempt has not ended. */
  lemma {:induction false} PendingExactly(armed: bool, run: seq<Event>, u: Url)
    requires IsRun(armed, run)
    ensures After(armed, run).connecting[u] + Finished(run, u) == Attempts(armed, run, u)
  {
    if run != [] { PendingExactly(armed, run[..|run| - 1], u); }
  }

  /** The signal is given at most once, and only if it was there to give. */
  lemma {:induction false} ReadyOnce(armed: bool, run: seq<Event>)
    requires IsRun(armed, run)
    ensures var h := After(armed, run);
            h.fired == (if armed && !h.armed then 1 else 0) && (h.armed ==> armed)
  {
    if run != [] { ReadyOnce(armed, run[..|run| - 1]); }
  }

  /** When the signal is given, every online upstream is registered. */
  lemma {:induction false} ReadyMeansRegistered(armed: bool, run: seq<Event>, u: Url, i: nat)
    requires IsRun(armed, run) && run != []
    requires After(armed, run).fired > After(armed, run[..|run| - 1]).fired
    requires OnlineSince(armed, run, u, i)
    ensures u in After(armed, run).upstreams
  {
    OnlineIsKnown(armed, run, u, i);
    assert |After(armed, run).connecting| == 0;
  }

  /** The signal is not withheld either: as soon as a finished attempt leaves none pending,
      it has been given. */
  lemma ReadyAsSoonAsConnected(armed: bool, run: seq<Event>)
    requires IsRun(armed, run) && run != [] && run[|run| - 1].Connected?
    requires |After(armed, run).connecting| == 0 && armed
    ensures After(armed, run).fired == 1
  {
    ReadyOnce(armed, run);
    ReadyOnce(armed, run[..|run| - 1]);
  }

  /** The dispatcher object. */
  class SubscriptionDispatcher {
    var upstreams: map<Url, Pool>
    var connections: multiset<Url>
    var ready: bool
    ghost var fired: nat

    ghost function View(): Hub
      reads this
    {
      Hub(upstreams, connections, ready, fired)
    }

    constructor (armed: bool)
      ensures View() == Start(armed)
    {
      upstreams, connections, ready, fired := map[], multiset{}, armed, 0;
    }

    method OnState(url: Url, online: bool)
      modifies this
      ensures View() == Step(old(View()), Upstream(url, online))
    {
      if !online {
        upstreams := upstreams - {url};
        return;
      }
      if url in upstreams { return; }
      connections := connections + multiset{url};
    }

    /** Hands the request to the upstream's pool, if there is one. */
    method OnRequest(url: Url, taken: bool) returns (handed: Option<Pool>)
      modifies this
      ensures View() == Step(old(View()), Request(url, taken))
      ensures handed == if url in old(upstreams) then Some(old(upstreams)[url]) else None
    {
      if url !in upstreams { return None; }
      handed := Some(upstreams[url]);
      if !taken { upstreams := upstreams - {url}; }
    }

    method OnConnected(url: Url, pool: Pool)
      requires url in connections
      modifies this
      ensures View() == Step(old(View()), Connected(url, pool))
    {
      connections := connections - multiset{url};
      upstreams := upstreams[url := pool];
      if |connections| != 0 { return; }
      if ready {
        ready := false;
        fired := fired + 1;
      }
    }

    /** The event loop: the object is where the run leads. */
    method Run(armed: bool, events: seq<Event>)
      requires View() == Start(armed) && IsRun(armed, events)
      modifies this
      ensures View() == After(armed, events)
    {
      for i := 0 to |events|
        invariant IsRun(armed, events[..i]) && View() == After(armed, events[..i])
      {
        PrefixIsRun(armed, events, i + 1);
        assert events[..i + 1][..i] == events[..i];
        match events[i] {
          case Upstream(url, online) => OnState(url, online);
          case Request(url, taken) => var _ := OnRequest(url, taken);
          case Connected(url, pool) => OnConnected(url, pool);
        }
      }
      assert events[..|events|] == events;
    }
  }
}
