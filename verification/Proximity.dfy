/** Proximity and health of an upstream, and the choice of the closest one. */
module Proximity {
  import opened RouterTypes

  const U64_MODULUS: nat := U64_MAX + 1
  const MAX_PROXIMITY_PING_FAILURES: nat := 3
  const U8_MAX: nat := 255

  /** The health part of an upstream record; `lastUpdate` is a time stamp. */
  datatype Health = Health(proximity: nat, lastUpdate: Option<nat>, failures: nat)

  const UNPINGED: Health := Health(U64_MAX, None, 0)

  /** The moving average with u64 arithmetic: products and sum wrap around. */
  function Smoothed(proximity: nat, last: nat): nat {
    (((proximity * 85) % U64_MODULUS + (last * 15) % U64_MODULUS) % U64_MODULUS) / 100
  }

  function Updated(h: Health, micros: nat, now: nat): Health {
    var last := micros % U64_MODULUS;
    Health(if h.proximity == U64_MAX then last else Smoothed(h.proximity, last), Some(now), 0)
  }

  function Failed(h: Health): Health {
    var failures := if h.failures < U8_MAX then h.failures + 1 else U8_MAX;
    Health(if failures >= MAX_PROXIMITY_PING_FAILURES then U64_MAX else h.proximity, h.lastUpdate, failures)
  }

  /** `duration_since` saturates at zero. */
  predicate Fresh(h: Health, now: nat, staleAfter: nat) {
    h.failures < MAX_PROXIMITY_PING_FAILURES && h.lastUpdate.Some? &&
    (if now >= h.lastUpdate.value then now - h.lastUpdate.value else 0) <= staleAfter
  }

  // ---- The limit of the average under a constant ping ----

  function Average(p: nat, l: nat): nat {
    (85 * p + 15 * l) / 100
  }

  lemma NoWrap(x: nat)
    requires x <= U64_MAX
    ensures x % U64_MODULUS == x
  {
  }

  /** Without overflow the wrapped average is the plain one. */
  lemma SmoothedIsAverage(p: nat, l: nat, bound: nat)
    requires p <= bound && l <= bound && 100 * bound <= U64_MAX
    ensures Smoothed(p, l) == Average(p, l)
  {
    NoWrap(p * 85);
    NoWrap(l * 15);
    NoWrap(p * 85 + l * 15);
  }

  lemma WrapOnce(x: nat, q: nat, r: nat)
    requires r < U64_MODULUS && x == U64_MODULUS * q + r
    ensures x % U64_MODULUS == r
  {
  }

  lemma WrappedSum(a: nat, b: nat)
    ensures (a % U64_MODULUS + b % U64_MODULUS) % U64_MODULUS == (a + b) % U64_MODULUS
  {
    var q, r := a / U64_MODULUS + b / U64_MODULUS, a % U64_MODULUS + b % U64_MODULUS;
    assert a + b == U64_MODULUS * q + r;
    if r < U64_MODULUS {
      WrapOnce(a + b, q, r);
      WrapOnce(r, 0, r);
    } else {
      WrapOnce(a + b, q + 1, r - U64_MODULUS);
      WrapOnce(r, 1, r - U64_MODULUS);
    }
  }

  /** The update is the average exactly as long as the weighted sum fits 64 bits; beyond that
      the sum wraps around, and the record ends up below the average. */
  lemma WrapsExactly(p: nat, l: nat)
    ensures Smoothed(p, l) == ((85 * p + 15 * l) % 0x1_0000_0000_0000_0000) / 100
    ensures Smoothed(p, l) == Average(p, l) <==> 85 * p + 15 * l < 0x1_0000_0000_0000_0000
    ensures 85 * p + 15 * l >= 0x1_0000_0000_0000_0000 ==> Smoothed(p, l) < Average(p, l)
  {
    var x := 85 * p + 15 * l;
    WrappedSum(p * 85, l * 15);
    if x < U64_MODULUS {
      NoWrap(x);
    } else {
      assert x % U64_MODULUS <= x - U64_MODULUS;
    }
  }

  /** Where a constant ping of `l` takes the average from `p`: to `l` from above, and from
      below to the nearest point not more than 6 short of it. */
  function Limit(p: nat, l: nat): nat {
    if p >= l then l else if l - p <= 6 then p else l - 6
  }

  /** One ping moves the average strictly towards its limit, never past it, and never moves the limit. */
  lemma AverageApproaches(p: nat, l: nat)
    ensures p == Limit(p, l) ==> Average(p, l) == p
    ensures p > Limit(p, l) ==> Limit(p, l) <= Average(p, l) < p
    ensures p < Limit(p, l) ==> p < Average(p, l) <= Limit(p, l)
    ensures Limit(Average(p, l), l) == Limit(p, l)
  {
  }

  function Pinged(p: nat, l: nat, n: nat): nat {
    if n == 0 then p else Average(Pinged(p, l, n - 1), l)
  }

  function Distance(p: nat, q: nat): nat {
    if p >= q then p - q else q - p
  }

  /** After as many pings as the average is away from its limit, it has reached it and stays. */
  lemma {:induction false} AverageReachesLimit(p: nat, l: nat, n: nat)
    ensures Limit(Pinged(p, l, n), l) == Limit(p, l)
    ensures n < Distance(p, Limit(p, l)) ==> Distance(Pinged(p, l, n), Limit(p, l)) <= Distance(p, Limit(p, l)) - n
    ensures n >= Distance(p, Limit(p, l)) ==> Pinged(p, l, n) == Limit(p, l)
  {
    if n > 0 {
      AverageReachesLimit(p, l, n - 1);
      AverageApproaches(Pinged(p, l, n - 1), l);
    }
  }

  // ---- The health machine over any run of pings ----

  datatype Ping = Success(micros: nat, at: nat) | Failure

  function Run(h: Health, pings: seq<Ping>): Health {
    if pings == [] then h
    else
      var before := Run(h, pings[..|pings| - 1]);
      match pings[|pings| - 1]
      case Success(micros, at) => Updated(before, micros, at)
      case Failure => Failed(before)
  }

  predicate Constant(pings: seq<Ping>, l: nat) {
    forall p <- pings :: p.Success? && p.micros == l
  }

  lemma {:induction false} RunInTwo(h: Health, pings: seq<Ping>, more: seq<Ping>)
    ensures Run(h, pings + more) == Run(Run(h, pings), more)
  {
    if more == [] {
      assert pings + more == pings;
    } else {
      assert (pings + more)[..|pings + more| - 1] == pings + more[..|more| - 1];
      RunInTwo(h, pings, more[..|more| - 1]);
    }
  }

  lemma UpdatedIsAverage(h: Health, l: nat, at: nat, bound: nat)
    requires l <= bound && 100 * bound <= U64_MAX && h.proximity <= bound
    ensures Updated(h, l, at).proximity == Average(h.proximity, l) <= bound
  {
    assert l % U64_MODULUS == l;
    SmoothedIsAverage(h.proximity, l, bound);
  }

  /** Constant pings of a measured record move its proximity as the average says. */
  lemma {:induction false} ConstantPings(h: Health, pings: seq<Ping>, l: nat, bound: nat)
    requires Constant(pings, l) && l <= bound && 100 * bound <= U64_MAX && h.proximity <= bound
    ensures Run(h, pings).proximity == Pinged(h.proximity, l, |pings|) <= bound
  {
    if pings != [] {
      var before, last := pings[..|pings| - 1], pings[|pings| - 1];
      assert pings == before + [last];
      ConstantPings(h, before, l, bound);
      assert last in pings;
      UpdatedIsAverage(Run(h, before), l, last.at, bound);
    }
  }

  /** A record without a measurement takes the first ping and stays there. */
  lemma {:induction false} FirstPing(h: Health, pings: seq<Ping>, l: nat, bound: nat)
    requires Constant(pings, l) && l <= bound && 100 * bound <= U64_MAX && h.proximity == U64_MAX && pings != []
    ensures Run(h, pings).proximity == l
  {
    var before, last := pings[..|pings| - 1], pings[|pings| - 1];
    assert pings == before + [last];
    assert last in pings && l % U64_MODULUS == l;
    if before != [] {
      FirstPing(h, before, l, bound);
      UpdatedIsAverage(Run(h, before), l, last.at, bound);
    }
  }

  /** Failures in a row at the end of the run. */
  function Streak(pings: seq<Ping>): nat {
    if pings == [] || pings[|pings| - 1].Success? then 0 else 1 + Streak(pings[..|pings| - 1])
  }

  /** The samples since the last three failures in a row. */
  function Window(pings: seq<Ping>): seq<nat> {
    if pings == [] then []
    else
      var before := Window(pings[..|pings| - 1]);
      match pings[|pings| - 1]
      case Success(micros, _) => before + [micros]
      case Failure => if Streak(pings) >= MAX_PROXIMITY_PING_FAILURES then [] else before
  }

  ghost predicate Between(x: nat, samples: seq<nat>) {
    && (exists lo <- samples :: lo <= x)
    && (exists hi <- samples :: x <= hi)
  }

  predicate Bounded(pings: seq<Ping>, bound: nat) {
    forall p <- pings :: p.Success? ==> p.micros <= bound
  }

  lemma AverageBetween(p: nat, l: nat, samples: seq<nat>)
    requires Between(p, samples)
    ensures Between(Average(p, l), samples + [l])
  {
    var lo :| lo in samples && lo <= p;
    var hi :| hi in samples && p <= hi;
    assert l in samples + [l] && lo in samples + [l] && hi in samples + [l];
    if p <= l { assert lo <= Average(p, l) <= l; } else { assert l <= Average(p, l) <= hi; }
  }

  /** The record's failure count is the current streak, and its proximity either lies
      between the least and the greatest sample since the last reset, or is the sentinel
      because there is no such sample. */
  ghost predicate Tracks(h: Health, streak: nat, window: seq<nat>, bound: nat) {
    && h.failures == (if streak < U8_MAX then streak else U8_MAX)
    && (window != [] ==> Between(h.proximity, window) && h.proximity <= bound)
    && (window == [] ==> h.proximity == U64_MAX)
    && (h.failures >= MAX_PROXIMITY_PING_FAILURES ==> window == [])
    && (h.lastUpdate.Some? && h.failures < MAX_PROXIMITY_PING_FAILURES ==> window != [])
  }

  lemma SuccessTracks(h: Health, streak: nat, window: seq<nat>, bound: nat, l: nat, at: nat)
    requires Tracks(h, streak, window, bound) && l <= bound && 100 * bound <= U64_MAX
    ensures Tracks(Updated(h, l, at), 0, window + [l], bound)
  {
    assert l % U64_MODULUS == l;
    assert l in window + [l];
    if window != [] {
      SmoothedIsAverage(h.proximity, l, bound);
      AverageBetween(h.proximity, l, window);
      assert Average(h.proximity, l) <= bound;
    }
  }

  /** This holds after any run of successes and failures. */
  lemma {:induction false} HealthTracksWindow(pings: seq<Ping>, bound: nat)
    requires Bounded(pings, bound) && 100 * bound <= U64_MAX
    ensures Tracks(Run(UNPINGED, pings), Streak(pings), Window(pings), bound)
  {
    if pings != [] {
      var before, last := pings[..|pings| - 1], pings[|pings| - 1];
      assert pings == before + [last];
      HealthTracksWindow(before, bound);
      if last.Success? {
        assert last in pings;
        SuccessTracks(Run(UNPINGED, before), Streak(before), Window(before), bound, last.micros, last.at);
      }
    }
  }

  /** The moving average's limit, for the record itself: after any history, constant pings of
      `l` bring the proximity strictly nearer to its limit each time until it is there. */
  lemma {:induction false} ConstantPingsReachLimit(pings: seq<Ping>, more: seq<Ping>, l: nat, bound: nat)
    requires Bounded(pings, bound) && Constant(more, l) && l <= bound && 100 * bound <= U64_MAX
    ensures var p, q := Run(UNPINGED, pings).proximity, Run(UNPINGED, pings + more).proximity;
            && (Window(pings) == [] && more != [] ==> q == l)
            && (Window(pings) != [] && |more| < Distance(p, Limit(p, l)) ==>
                  Distance(q, Limit(p, l)) <= Distance(p, Limit(p, l)) - |more|)
            && (Window(pings) != [] && |more| >= Distance(p, Limit(p, l)) ==> q == Limit(p, l))
  {
    var h := Run(UNPINGED, pings);
    HealthTracksWindow(pings, bound);
    RunInTwo(UNPINGED, pings, more);
    if Window(pings) == [] {
      if more != [] { FirstPing(h, more, l, bound); }
    } else {
      ConstantPings(h, more, l, bound);
      AverageReachesLimit(h.proximity, l, |more|);
    }
  }

  /** Ping `i` succeeded at that time, and none has succeeded since. */
  predicate LastSuccessIs(pings: seq<Ping>, i: nat, at: nat) {
    && i < |pings| && pings[i].Success? && pings[i].at == at
    && forall j | i < j < |pings| :: pings[j].Failure?
  }

  ghost predicate LastSuccess(pings: seq<Ping>, at: nat) {
    exists i :: LastSuccessIs(pings, i, at)
  }

  lemma SuccessStays(pings: seq<Ping>, p: Ping, i: nat, at: nat)
    requires p.Failure? && LastSuccessIs(pings, i, at)
    ensures LastSuccessIs(pings + [p], i, at)
  {
  }

  /** A record is stamped with the time of its last success. */
  lemma {:induction false} StampedLast(pings: seq<Ping>)
    ensures var stamp := Run(UNPINGED, pings).lastUpdate;
            && (stamp.Some? ==> LastSuccess(pings, stamp.value))
            && (stamp.None? ==> forall i | 0 <= i < |pings| :: pings[i].Failure?)
  {
    if pings != [] {
      var before, last := pings[..|pings| - 1], pings[|pings| - 1];
      StampedLast(before);
      assert pings == before + [last];
      if last.Success? {
        assert LastSuccessIs(pings, |pings| - 1, last.at);
      } else if Run(UNPINGED, before).lastUpdate.Some? {
        var at := Run(UNPINGED, before).lastUpdate.value;
        var i: nat :| LastSuccessIs(before, i, at);
        SuccessStays(before, last, i, at);
      } else {
        forall i | 0 <= i < |pings| ensures pings[i].Failure? {
          if i < |before| { assert before[i].Failure?; }
        }
      }
    }
  }

  lemma {:induction false} FailuresAreStreak(pings: seq<Ping>)
    ensures Run(UNPINGED, pings).failures == if Streak(pings) < 255 then Streak(pings) else 255
  {
    if pings != [] { FailuresAreStreak(pings[..|pings| - 1]); }
  }

  predicate LastThreeFailed(pings: seq<Ping>) {
    var n := |pings|;
    n >= 3 && pings[n - 1].Failure? && pings[n - 2].Failure? && pings[n - 3].Failure?
  }

  lemma {:induction false} StreakOfThree(pings: seq<Ping>)
    ensures Streak(pings) >= 3 <==> LastThreeFailed(pings)
  {
    var n := |pings|;
    if n >= 3 && Streak(pings) > 0 {
      assert Streak(pings) == 1 + Streak(pings[..n - 1]);
      assert pings[..n - 1][..n - 2] == pings[..n - 2];
      assert pings[..n - 2][..n - 3] == pings[..n - 3];
    } else if n == 2 {
      assert Streak(pings) <= 1 + Streak(pings[..1]) <= 2 + Streak(pings[..1][..0]);
    } else if n == 1 {
      assert Streak(pings) <= 1 + Streak(pings[..0]);
    }
  }

  /** A record counts as fresh exactly if its last three pings did not all fail and its last
      success is no longer ago than the limit. */
  lemma {:induction false} FreshExactly(pings: seq<Ping>, now: nat, staleAfter: nat)
    ensures Fresh(Run(UNPINGED, pings), now, staleAfter) <==>
              !LastThreeFailed(pings) && exists at: nat :: LastSuccess(pings, at) && now <= at + staleAfter
  {
    StampedLast(pings);
    StreakOfThree(pings);
    FailuresAreStreak(pings);
    forall at: nat, at': nat | LastSuccess(pings, at) && LastSuccess(pings, at') ensures at == at' {
      var i: nat :| LastSuccessIs(pings, i, at);
      var i': nat :| LastSuccessIs(pings, i', at');
      assert i == i';
    }
    if Run(UNPINGED, pings).lastUpdate.None? {
      forall at: nat ensures !LastSuccess(pings, at) {
      }
    }
  }

  // ---- Choosing the closest node ----

  type ClientId = nat
  datatype Node = Node(id: Pubkey, client: ClientId, health: Health)
  datatype RouterError = UnknownErNode(id: Pubkey)

  const DEFAULT_PUBKEY: Pubkey := 0

  /** The routing table visits its nodes in an arbitrary order, given by `nodes`. The result
      is the base chain unless some fresh node is measured, and otherwise the first fresh
      node in that order whose proximity is least. */
  method ClosestNode(nodes: seq<Node>, pinned: Option<Pubkey>, base: ClientId, now: nat, staleAfter: nat)
    returns (r: Result<(Pubkey, ClientId), RouterError>, chosen: Option<nat>)
    ensures pinned.Some? && r.Err? ==>
              r.error == UnknownErNode(pinned.value) && forall n <- nodes :: n.id != pinned.value
    ensures pinned.Some? && r.Ok? ==> exists n <- nodes :: n.id == pinned.value && r.value == (n.id, n.client)
    ensures pinned.None? ==>
              match chosen
              case None =>
                r == Ok((DEFAULT_PUBKEY, base)) &&
                forall n <- nodes :: !Fresh(n.health, now, staleAfter) || n.health.proximity >= U64_MAX
              case Some(i) =>
                && i < |nodes| && r == Ok((nodes[i].id, nodes[i].client))
                && Fresh(nodes[i].health, now, staleAfter)
                && nodes[i].health.proximity < U64_MAX
                && (forall n <- nodes :: Fresh(n.health, now, staleAfter) ==>
                     nodes[i].health.proximity <= n.health.proximity)
                && (forall j | 0 <= j < i :: Fresh(nodes[j].health, now, staleAfter) ==>
                      nodes[i].health.proximity < nodes[j].health.proximity)
  {
    chosen := None;
    if pinned.Some? {
      for i := 0 to |nodes|
        invariant forall j | 0 <= j < i :: nodes[j].id != pinned.value
      {
        if nodes[i].id == pinned.value {
          return Ok((nodes[i].id, nodes[i].client)), None;
        }
      }
      return Err(UnknownErNode(pinned.value)), None;
    }
    var nodeId, client, minProximity := DEFAULT_PUBKEY, base, U64_MAX;
    for i := 0 to |nodes|
      invariant chosen.None? ==>
                  nodeId == DEFAULT_PUBKEY && client == base && minProximity == U64_MAX &&
                  forall j | 0 <= j < i ::
                    !Fresh(nodes[j].health, now, staleAfter) || nodes[j].health.proximity >= U64_MAX
      invariant chosen.Some? ==>
                  var c := chosen.value;
                  && c < i && nodeId == nodes[c].id && client == nodes[c].client
                  && minProximity == nodes[c].health.proximity < U64_MAX
                  && Fresh(nodes[c].health, now, staleAfter)
                  && (forall j | 0 <= j < i :: Fresh(nodes[j].health, now, staleAfter) ==>
                       minProximity <= nodes[j].health.proximity)
                  && (forall j | 0 <= j < c :: Fresh(nodes[j].health, now, staleAfter) ==>
                       minProximity < nodes[j].health.proximity)
    {
      if Fresh(nodes[i].health, now, staleAfter) && minProximity > nodes[i].health.proximity {
        minProximity, nodeId, client := nodes[i].health.proximity, nodes[i].id, nodes[i].client;
        chosen := Some(i);
      }
    }
    r := Ok((nodeId, client));
  }

  /** A record kept by the health machine is fresh only with a real measurement. With it the
      choice above falls back to the base chain exactly when no node is fresh, and otherwise
      takes a minimal fresh node. */
  lemma FreshIsMeasured(pings: seq<Ping>, bound: nat, now: nat, staleAfter: nat)
    requires Bounded(pings, bound) && 100 * bound <= U64_MAX
    requires Fresh(Run(UNPINGED, pings), now, staleAfter)
    ensures Run(UNPINGED, pings).proximity <= bound < U64_MAX
    ensures Between(Run(UNPINGED, pings).proximity, Window(pings))
  {
    HealthTracksWindow(pings, bound);
  }

  ghost predicate Maintained(n: Node, bound: nat) {
    exists pings :: Bounded(pings, bound) && n.health == Run(UNPINGED, pings)
  }

  method ClosestMaintained(nodes: seq<Node>, base: ClientId, now: nat, staleAfter: nat, ghost bound: nat)
    returns (r: (Pubkey, ClientId))
    requires 100 * bound <= U64_MAX && forall n <- nodes :: Maintained(n, bound)
    ensures (forall n <- nodes :: !Fresh(n.health, now, staleAfter)) ==> r == (DEFAULT_PUBKEY, base)
    ensures (exists n <- nodes :: Fresh(n.health, now, staleAfter)) ==>
              exists n <- nodes :: r == (n.id, n.client) && Fresh(n.health, now, staleAfter) &&
                forall m <- nodes :: Fresh(m.health, now, staleAfter) ==> n.health.proximity <= m.health.proximity
  {
    var result, chosen := ClosestNode(nodes, None, base, now, staleAfter);
    r := result.value;
    forall n <- nodes ensures Fresh(n.health, now, staleAfter) ==> n.health.proximity < U64_MAX {
      var pings :| Bounded(pings, bound) && n.health == Run(UNPINGED, pings);
      if Fresh(n.health, now, staleAfter) { FreshIsMeasured(pings, bound, now, staleAfter); }
    }
    if chosen.Some? { assert nodes[chosen.value] in nodes; }
  }

  /** The mutable record. */
  class UpstreamRecord {
    var proximityMicros: nat
    var lastProximityUpdate: Option<nat>
    var consecutivePingFailures: nat

    ghost function View(): Health
      reads this
    {
      Health(proximityMicros, lastProximityUpdate, consecutivePingFailures)
    }

    constructor ()
      ensures View() == UNPINGED
    {
      proximityMicros, lastProximityUpdate, consecutivePingFailures := U64_MAX, None, 0;
    }

    method UpdateProximity(micros: nat, now: nat)
      modifies this
      ensures View() == Updated(old(View()), micros, now)
      ensures var last := micros % 0x1_0000_0000_0000_0000;
              proximityMicros ==
              if old(proximityMicros) == 0xFFFF_FFFF_FFFF_FFFF then last
              else ((85 * old(proximityMicros) + 15 * last) % 0x1_0000_0000_0000_0000) / 100
      ensures lastProximityUpdate == Some(now) && consecutivePingFailures == 0
    {
      WrapsExactly(proximityMicros, micros % U64_MODULUS);
      var last := micros % U64_MODULUS;
      if proximityMicros == U64_MAX {
        proximityMicros := last;
      } else {
        proximityMicros := (((proximityMicros * 85) % U64_MODULUS + (last * 15) % U64_MODULUS) % U64_MODULUS) / 100;
      }
      lastProximityUpdate := Some(now);
      consecutivePingFailures := 0;
    }

    method RegisterPingFailure()
      modifies this
      ensures View() == Failed(old(View()))
      ensures consecutivePingFailures ==
              if old(consecutivePingFailures) < 255 then old(consecutivePingFailures) + 1 else 255
      ensures proximityMicros ==
              if consecutivePingFailures >= 3 then 0xFFFF_FFFF_FFFF_FFFF else old(proximityMicros)
      ensures lastProximityUpdate == old(lastProximityUpdate)
    {
      consecutivePingFailures := if consecutivePingFailures < U8_MAX then consecutivePingFailures + 1 else U8_MAX;
      if consecutivePingFailures >= MAX_PROXIMITY_PING_FAILURES {
        proximityMicros := U64_MAX;
      }
    }
  }
}
