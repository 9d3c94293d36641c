/** One entry of the delegation cache and the operations that the fill owner and the
    stream updater perform on it while they hold it locked. */
module CacheEntry {
  import opened RouterTypes

  /** Identity of a pending fill, the only thing the source compares with `ptr_eq`. */
  type FillId = nat

  datatype Entry = Entry(
    slot: nat,
    record: Option<Record>,
    pendingMin: Option<nat>,
    pendingFill: Option<FillId>)

  /** What a fetch hands back; slot 0 means that every attempt failed. */
  function Fetched(slot: nat, record: Option<Record>): Entry {
    Entry(slot, record, None, None)
  }

  function Placeholder(f: FillId): Entry {
    Entry(0, None, None, Some(f))
  }

  /** Slot 0 is pending and empty; an initialised entry carries nothing pending. */
  predicate WellFormed(e: Entry) {
    && (e.slot == 0 ==> e.record.None?)
    && (e.slot != 0 ==> e.pendingMin.None? && e.pendingFill.None?)
  }

  /** A merge leaves the placeholder of a fill that is not its own alone. */
  predicate Blocks(e: Entry, own: Option<FillId>) {
    e.pendingFill.Some? && e.pendingFill != own
  }

  /** The entry after a fetched value is merged into it. */
  function Merged(e: Entry, fetched: Entry, own: Option<FillId>): Entry {
    if Blocks(e, own) then e else if e.slot < fetched.slot then fetched else e
  }

  /** The value whose record the merge returns to its caller. */
  function Served(e: Entry, fetched: Entry, own: Option<FillId>): Entry {
    if Blocks(e, own) || e.slot < fetched.slot then fetched else e
  }

  /** The entry after a stream update. */
  function Streamed(e: Entry, slot: nat, record: Option<Record>): Entry {
    if e.slot >= slot then e else Entry(slot, record, None, None)
  }

  /** The fill that a stream update takes out of the entry and has to notify. */
  function Taken(e: Entry, slot: nat): Option<FillId> {
    if e.slot >= slot then None else e.pendingFill
  }

  /** The owner's clean-up: it clears its own pending fill and nobody else's. */
  function Cleaned(e: Entry, f: FillId): Entry {
    if e.pendingFill == Some(f) then e.(pendingFill := None) else e
  }

  /** One observation reaching an entry: a fetch merged by somebody, or a stream update. */
  datatype Delivery =
    | ByFetch(slot: nat, own: Option<FillId>)
    | ByStream(slot: nat)

  /** `truth` gives the record the chain had at each slot; slot 0 is a failed fetch. */
  function Deliver(truth: nat -> Option<Record>, e: Entry, d: Delivery): Entry {
    match d
    case ByFetch(slot, own) => Merged(e, Fetched(slot, if slot == 0 then None else truth(slot)), own)
    case ByStream(slot) => Streamed(e, slot, truth(slot))
  }

  function DeliverAll(truth: nat -> Option<Record>, e: Entry, ds: seq<Delivery>): Entry {
    if ds == [] then e
    else Deliver(truth, DeliverAll(truth, e, ds[..|ds| - 1]), ds[|ds| - 1])
  }

  function Latest(ds: seq<Delivery>): nat {
    if ds == [] then 0
    else
      var rest := Latest(ds[..|ds| - 1]);
      if rest < ds[|ds| - 1].slot then ds[|ds| - 1].slot else rest
  }

  lemma {:induction false} LatestIsGreatest(ds: seq<Delivery>)
    ensures forall d <- ds :: d.slot <= Latest(ds)
    ensures Latest(ds) != 0 ==> exists d <- ds :: d.slot == Latest(ds)
  {
    if ds != [] {
      var rest, last := ds[..|ds| - 1], ds[|ds| - 1];
      LatestIsGreatest(rest);
      assert ds == rest + [last];
      assert last in ds && forall d <- rest :: d in ds;
    }
  }

  /** The merges come from the fill owner of this residence, or nothing is pending. */
  predicate Admitted(e: Entry, ds: seq<Delivery>) {
    forall d <- ds :: d.ByFetch? ==> !Blocks(e, d.own)
  }

  /** Fetch merges and stream updates leave the observation with the greatest slot. */
  lemma {:induction false} GreatestSlotWins(truth: nat -> Option<Record>, e: Entry, ds: seq<Delivery>)
    requires Admitted(e, ds)
    ensures DeliverAll(truth, e, ds) ==
            if Latest(ds) > e.slot then Fetched(Latest(ds), truth(Latest(ds))) else e
  {
    if ds != [] {
      var rest := ds[..|ds| - 1];
      assert ds == rest + [ds[|ds| - 1]];
      GreatestSlotWins(truth, e, rest);
    }
  }

  /** In whatever order they arrive, the same observations leave the same entry. */
  lemma OrderIndependent(truth: nat -> Option<Record>, e: Entry, ds: seq<Delivery>, es: seq<Delivery>)
    requires Admitted(e, ds) && multiset(ds) == multiset(es)
    ensures DeliverAll(truth, e, ds) == DeliverAll(truth, e, es)
  {
    forall d ensures d in ds <==> d in es {
      assert d in ds <==> d in multiset(ds);
    }
    LatestIsGreatest(ds);
    LatestIsGreatest(es);
    GreatestSlotWins(truth, e, ds);
    GreatestSlotWins(truth, e, es);
  }

  // ---- Merges that bounce off a pending fill ----

  /** A merge by somebody who does not own the fill that is pending in the entry. */
  predicate Foreign(e: Entry, d: Delivery) {
    d.ByFetch? && Blocks(e, d.own)
  }

  /** The foreign deliveries, or the others. */
  function Picked(e: Entry, ds: seq<Delivery>, foreign: bool): seq<Delivery> {
    if ds == [] then []
    else
      var rest, last := Picked(e, ds[..|ds| - 1], foreign), ds[|ds| - 1];
      if Foreign(e, last) == foreign then rest + [last] else rest
  }

  lemma {:induction false} PickedAre(e: Entry, ds: seq<Delivery>, foreign: bool)
    ensures forall d :: d in Picked(e, ds, foreign) <==> d in ds && Foreign(e, d) == foreign
  {
    if ds != [] {
      PickedAre(e, ds[..|ds| - 1], foreign);
      assert ds == ds[..|ds| - 1] + [ds[|ds| - 1]];
    }
  }

  lemma CountOfMore(ds: seq<Delivery>, x: Delivery, d: Delivery)
    ensures multiset(ds + [x])[d] == multiset(ds)[d] + if x == d then 1 else 0
  {
  }

  lemma {:induction false} PickedCount(e: Entry, ds: seq<Delivery>, d: Delivery)
    ensures multiset(Picked(e, ds, true))[d] + multiset(Picked(e, ds, false))[d] == multiset(ds)[d]
  {
    if ds != [] {
      var rest, last := ds[..|ds| - 1], ds[|ds| - 1];
      PickedCount(e, rest, d);
      CountOfMore(rest, last, d);
      CountOfMore(Picked(e, rest, Foreign(e, last)), last, d);
      assert ds == rest + [last];
    }
  }

  lemma {:induction false} PickedPermute(e: Entry, ds: seq<Delivery>, foreign: bool)
    ensures multiset(Picked(e, ds, foreign) + Picked(e, ds, !foreign)) == multiset(ds)
  {
    var xs, ys := Picked(e, ds, foreign), Picked(e, ds, !foreign);
    forall d ensures multiset(xs + ys)[d] == multiset(ds)[d] {
      PickedCount(e, ds, d);
      assert multiset(xs + ys) == multiset(xs) + multiset(ys);
    }
  }

  lemma LatestOfMore(ds: seq<Delivery>, d: Delivery)
    ensures Latest(ds + [d]) == Max(Latest(ds), d.slot)
  {
    assert (ds + [d])[..|ds + [d]| - 1] == ds;
  }

  /** Where an entry `e` ends if the greatest slot of its own deliveries is `own` and that of
      the foreign ones is `foreign`: it stays as it is if none of its own is newer; otherwise
      it ends at the greatest of those, or at a foreign slot beyond it. */
  predicate EndsAt(truth: nat -> Option<Record>, e: Entry, x: Entry, own: nat, foreign: nat) {
    if own <= e.slot then x == e
    else x == Fetched(x.slot, truth(x.slot)) && own <= x.slot && (x.slot == own || x.slot <= foreign)
  }

  function Max(a: nat, b: nat): nat {
    if a < b then b else a
  }

  lemma DeliverEnds(truth: nat -> Option<Record>, e: Entry, x: Entry, d: Delivery, own: nat, foreign: nat)
    requires EndsAt(truth, e, x, own, foreign)
    ensures EndsAt(truth, e, Deliver(truth, x, d), if Foreign(e, d) then own else Max(own, d.slot),
                   if Foreign(e, d) then Max(foreign, d.slot) else foreign)
  {
  }

  lemma {:induction false} Outcome(truth: nat -> Option<Record>, e: Entry, ds: seq<Delivery>)
    ensures EndsAt(truth, e, DeliverAll(truth, e, ds), Latest(Picked(e, ds, false)), Latest(Picked(e, ds, true)))
  {
    if ds != [] {
      var rest, last := ds[..|ds| - 1], ds[|ds| - 1];
      Outcome(truth, e, rest);
      DeliverEnds(truth, e, DeliverAll(truth, e, rest), last, Latest(Picked(e, rest, false)),
                  Latest(Picked(e, rest, true)));
      LatestOfMore(Picked(e, rest, Foreign(e, last)), last);
    }
  }

  lemma {:induction false} DeliverInTwo(truth: nat -> Option<Record>, e: Entry, ds: seq<Delivery>, es: seq<Delivery>)
    ensures DeliverAll(truth, e, ds + es) == DeliverAll(truth, DeliverAll(truth, e, ds), es)
  {
    if es == [] {
      assert ds + es == ds;
    } else {
      assert (ds + es)[..|ds + es| - 1] == ds + es[..|es| - 1];
      DeliverInTwo(truth, e, ds, es[..|es| - 1]);
    }
  }

  lemma {:induction false} SameLatest(ds: seq<Delivery>, es: seq<Delivery>)
    requires forall d :: d in ds <==> d in es
    ensures Latest(ds) == Latest(es)
  {
    LatestIsGreatest(ds);
    LatestIsGreatest(es);
  }

  /** A foreign fetch can be newer than everything else that will be delivered. */
  predicate ForeignAhead(e: Entry, ds: seq<Delivery>) {
    Latest(Picked(e, ds, true)) > Latest(Picked(e, ds, false)) > e.slot
  }

  lemma {:induction false} PermutedAgree(truth: nat -> Option<Record>, e: Entry, ds: seq<Delivery>, es: seq<Delivery>)
    requires multiset(ds) == multiset(es) && !ForeignAhead(e, ds)
    ensures DeliverAll(truth, e, ds) == DeliverAll(truth, e, es)
  {
    forall d ensures d in ds <==> d in es {
      assert d in ds <==> d in multiset(ds);
    }
    forall foreign: bool ensures Latest(Picked(e, ds, foreign)) == Latest(Picked(e, es, foreign)) {
      PickedAre(e, ds, foreign);
      PickedAre(e, es, foreign);
      SameLatest(Picked(e, ds, foreign), Picked(e, es, foreign));
    }
    Outcome(truth, e, ds);
    Outcome(truth, e, es);
  }

  /** The foreign fetches bounce if they come first, and win if they come last. */
  lemma {:induction false} ForeignFirstOrLast(truth: nat -> Option<Record>, e: Entry, ds: seq<Delivery>)
    requires ForeignAhead(e, ds)
    ensures var fs, gs := Picked(e, ds, true), Picked(e, ds, false);
            DeliverAll(truth, e, fs + gs).slot == Latest(gs) && DeliverAll(truth, e, gs + fs).slot == Latest(fs)
  {
    var fs, gs := Picked(e, ds, true), Picked(e, ds, false);
    PickedAre(e, ds, true);
    PickedAre(e, ds, false);
    PickedAre(e, fs, false);
    PickedAre(e, gs, true);
    PickedAre(e, gs, false);
    SameLatest(gs, Picked(e, gs, false));
    assert Picked(e, fs, false) == [] && Picked(e, gs, true) == [] by {
      assert Picked(e, fs, false) != [] ==> Picked(e, fs, false)[0] in Picked(e, fs, false);
      assert Picked(e, gs, true) != [] ==> Picked(e, gs, true)[0] in Picked(e, gs, true);
    }
    DeliverInTwo(truth, e, fs, gs);
    DeliverInTwo(truth, e, gs, fs);
    Outcome(truth, e, fs);
    Outcome(truth, e, gs);
    GreatestSlotWins(truth, DeliverAll(truth, e, gs), fs);
  }

  /** Every permutation of the deliveries leaves the same entry. */
  ghost predicate OrderFree(truth: nat -> Option<Record>, e: Entry, ds: seq<Delivery>) {
    forall es | multiset(es) == multiset(ds) :: DeliverAll(truth, e, es) == DeliverAll(truth, e, ds)
  }

  lemma {:induction false} OrderMatters(truth: nat -> Option<Record>, e: Entry, ds: seq<Delivery>)
    returns (early: seq<Delivery>, late: seq<Delivery>)
    requires ForeignAhead(e, ds)
    ensures multiset(early) == multiset(ds) && multiset(late) == multiset(ds)
    ensures DeliverAll(truth, e, early).slot < DeliverAll(truth, e, late).slot
  {
    early := Picked(e, ds, true) + Picked(e, ds, false);
    late := Picked(e, ds, false) + Picked(e, ds, true);
    PickedPermute(e, ds, true);
    PickedPermute(e, ds, false);
    ForeignFirstOrLast(truth, e, ds);
  }

  /** Exactly when the order of the observations does not matter to an entry. */
  lemma {:induction false} OrderIndependentExactly(truth: nat -> Option<Record>, e: Entry, ds: seq<Delivery>)
    ensures OrderFree(truth, e, ds) <==> !ForeignAhead(e, ds)
  {
    if ForeignAhead(e, ds) {
      var early, late := OrderMatters(truth, e, ds);
    } else {
      forall es | multiset(es) == multiset(ds) ensures DeliverAll(truth, e, es) == DeliverAll(truth, e, ds) {
        PermutedAgree(truth, e, ds, es);
      }
    }
  }
}
