/** What the cache-fill protocol guarantees over every run. */
module FillTheorems {
  import opened RouterTypes
  import opened CacheEntry
  import opened FillProtocol
  import opened FillInvariant
  import opened Provenance

  lemma {:induction false} PrefixIsRun(chain: Chain, run: seq<Action>, n: nat)
    requires IsRun(chain, run) && n <= |run|
    ensures IsRun(chain, run[..n])
  {
    if n < |run| {
      PrefixIsRun(chain, run[..|run| - 1], n);
      assert run[..|run| - 1][..n] == run[..n];
    } else {
      assert run[..n] == run;
    }
  }

  lemma {:induction false} Append(chain: Chain, run: seq<Action>, a: Action) returns (longer: seq<Action>)
    requires IsRun(chain, run) && Enabled(After(chain, run), a)
    ensures longer == run + [a] && IsRun(chain, longer) && After(chain, longer) == Apply(chain, After(chain, run), a)
  {
    longer := run + [a];
    assert longer[..|longer| - 1] == run;
  }

  /** These actions leave the map alone. */
  predicate Quiet(a: Action) {
    !(a.RetireDead? || a.Insert? || a.Withdraw? || a.Check? || a.Merge? || a.Clean? || a.Update? || a.Clear?)
  }

  lemma QuietKeepsMap(chain: Chain, s: State, a: Action)
    requires Enabled(s, a) && Quiet(a)
    ensures Apply(chain, s, a).db == s.db
  {
  }

  lemma FailureStep(chain: Chain, s: State, a: Action, t: TaskId)
    requires Enabled(s, a)
    ensures var s' := Apply(chain, s, a);
            (if t < |s'.tasks| then s'.tasks[t].failures else 0) ==
            (if t < |s.tasks| then s.tasks[t].failures else 0) + (if a == RpcFail(t) then 1 else 0)
  {
    if t < |s.tasks| && Actor(a) != Some(t) { OthersStay(chain, s, a, t); }
  }

  /** Each task's failure counter counts its failed RPC attempts in the run. */
  lemma {:induction false} FailuresCounted(chain: Chain, run: seq<Action>, t: TaskId)
    requires IsRun(chain, run)
    ensures var s := After(chain, run);
            multiset(run)[RpcFail(t)] == if t < |s.tasks| then s.tasks[t].failures else 0
  {
    if run != [] {
      var before, a := run[..|run| - 1], run[|run| - 1];
      FailuresCounted(chain, before, t);
      FailureStep(chain, After(chain, before), a, t);
      assert run == before + [a];
    }
  }

  /** The record is one the chain had at a slot at which this run observed the key, or the
      `None` of a caller on the same key that saw all four attempts of its fetch fail. */
  ghost predicate Justified(chain: Chain, run: seq<Action>, k: Pubkey, record: Option<Record>)
    requires IsRun(chain, run)
  {
    var s := After(chain, run);
    || (exists slot :: slot > 0 && record == chain(k, slot) && Observed(chain, run, k, slot))
    || (record.None? && exists b {:trigger s.tasks[b]} ::
          0 <= b < |s.tasks| && s.tasks[b].key == k && multiset(run)[RpcFail(b)] == 4)
  }

  /** Soundness over every interleaving of readers, updater, evictions, clears and cancellations. */
  lemma {:induction false} Soundness(chain: Chain, run: seq<Action>)
    requires IsRun(chain, run)
    ensures var s := After(chain, run);
            && (forall k <- s.db :: s.db[k].entry.slot != 0 ==>
                  s.db[k].entry.record == chain(k, s.db[k].entry.slot) &&
                  Observed(chain, run, k, s.db[k].entry.slot))
            && (forall t | 0 <= t < |s.tasks| && s.tasks[t].pc.Done? ::
                  Justified(chain, run, s.tasks[t].key, s.tasks[t].pc.answer.record))
  {
    RunKeeps(chain, run);
    RunSourced(chain, run);
    var s := After(chain, run);
    forall k <- s.db | s.db[k].entry.slot != 0
      ensures s.db[k].entry.record == chain(k, s.db[k].entry.slot) && Observed(chain, run, k, s.db[k].entry.slot)
    {
      assert CellOk(chain, s, k);
      SightingsObserved(chain, run, k, s.db[k].entry.slot);
    }
    forall t | 0 <= t < |s.tasks| && s.tasks[t].pc.Done?
      ensures Justified(chain, run, s.tasks[t].key, s.tasks[t].pc.answer.record)
    {
      assert TaskOk(chain, s, t) && SourcedTask(s.tasks[t], Sightings(chain, run));
      match s.tasks[t].pc.answer.source
      case AtSlot(slot) => SightingsObserved(chain, run, s.tasks[t].key, slot);
      case Exhausted(caller) => FailuresCounted(chain, run, caller);
    }
  }

  /** One call makes at most four failing RPC attempts, however often it goes round its loop. */
  lemma AttemptsBounded(chain: Chain, run: seq<Action>, t: TaskId)
    requires IsRun(chain, run)
    ensures multiset(run)[RpcFail(t)] <= 4
  {
    RunKeeps(chain, run);
    FailuresCounted(chain, run, t);
    var s := After(chain, run);
    if t < |s.tasks| { assert TaskOk(chain, s, t); }
  }

  /** Life of a fill: what pends implies an empty slot-0 entry; a fill sits under its
      owner's key and in no entry once resolved; an unresolved fill has an owner that
      still holds its sender. */
  ghost predicate LivesRightly(s: State) {
    && (forall k <- s.db ::
          s.db[k].entry.pendingFill.Some? || s.db[k].entry.pendingMin.Some? ==>
            s.db[k].entry.slot == 0 && s.db[k].entry.record.None?)
    && (forall k <- s.db :: s.db[k].entry.pendingFill.Some? ==>
          var f := s.db[k].entry.pendingFill.value;
          f < |s.fills| && !s.fills[f].state.Resolved? &&
          s.fills[f].owner < |s.tasks| && s.tasks[s.fills[f].owner].key == k)
    && (forall f | 0 <= f < |s.fills| && s.fills[f].state.Unresolved? ::
          s.fills[f].owner < |s.tasks| && Owned(s.tasks[s.fills[f].owner].pc) == Some(f))
  }

  lemma InvLivesRightly(chain: Chain, s: State)
    requires Inv(chain, s)
    ensures LivesRightly(s)
  {
    forall k <- s.db ensures CellOk(chain, s, k) && FillOk(s, s.db[k].home) {
      assert CellOk(chain, s, k);
    }
    forall f | 0 <= f < |s.fills| && s.fills[f].state.Unresolved?
      ensures s.fills[f].owner < |s.tasks| && Owned(s.tasks[s.fills[f].owner].pc) == Some(f)
    {
      assert FillOk(s, f);
    }
  }

  lemma {:induction false} Lifecycle(chain: Chain, run: seq<Action>)
    requires IsRun(chain, run)
    ensures LivesRightly(After(chain, run))
  {
    RunKeeps(chain, run);
    InvLivesRightly(chain, After(chain, run));
  }

  /** Two entries never carry the same fill. */
  lemma FillInOnePlace(chain: Chain, run: seq<Action>, k: Pubkey, j: Pubkey)
    requires IsRun(chain, run)
    requires k in After(chain, run).db && j in After(chain, run).db
    requires After(chain, run).db[k].entry.pendingFill.Some?
    requires After(chain, run).db[k].entry.pendingFill == After(chain, run).db[j].entry.pendingFill
    ensures k == j
  {
    RunKeeps(chain, run);
    assert CellOk(chain, After(chain, run), k) && CellOk(chain, After(chain, run), j);
  }

  /** Everyone served by a fill returns exactly what its owner returned. */
  lemma {:induction false} Coalesced(chain: Chain, run: seq<Action>, t: TaskId)
    requires IsRun(chain, run)
    requires var s := After(chain, run); t < |s.tasks| && s.tasks[t].pc.Done? && s.tasks[t].pc.via.Some?
    ensures var s := After(chain, run);
            var f := s.tasks[t].pc.via.value;
            && f < |s.fills| && s.fills[f].owner < |s.tasks|
            && s.tasks[s.fills[f].owner].pc == Done(s.tasks[t].pc.answer, Some(f))
  {
    RunKeeps(chain, run);
    var s := After(chain, run);
    assert TaskOk(chain, s, t) && FillOk(s, s.tasks[t].pc.via.value);
  }

  /** Only its owner, the stream, an eviction, a clear, or a waiter that has seen the fill
      dropped ever changes or removes an entry that carries a fill. */
  lemma PlaceholderGuarded(chain: Chain, s: State, a: Action, k: Pubkey, f: FillId)
    requires Inv(chain, s) && Enabled(s, a)
    requires k in s.db && s.db[k].entry.pendingFill == Some(f)
    requires var s' := Apply(chain, s, a); k !in s'.db || s'.db[k] != s.db[k]
    ensures f < |s.fills|
    ensures || Actor(a) == Some(s.fills[f].owner)
            || (a.Update? && a.key == k)
            || (a.Clear? && k in a.keys)
            || (a.Insert? && a.evicted == Some(k))
            || (a.RetireDead? && s.tasks[a.t].pc == Retiring(f) && s.fills[f].state.Dropped?)
  {
    assert CellOk(chain, s, k);
    if Quiet(a) {
      QuietKeepsMap(chain, s, a);
    } else if Actor(a).Some? {
      assert TaskOk(chain, s, a.t);
    }
  }

  /** Steps an owner can still take before its fill is settled. */
  function Rank(pc: PC): nat {
    match pc
    case Subscribing(_) => 14
    case Checking(_, _) => 13
    case Racing(_, _, attempt, watch) => 3 + Left(attempt) + WatchRank(watch)
    case Merging(_, _, _) => 3
    case Cleaning(_, _) => 2
    case Sending(_, _) => 1
    case Withdrawing(_) => 6
    case Fetching(_, _, attempt, _) => 1 + Left(attempt)
    case _ => 0
  }

  function Left(attempt: nat): nat {
    if attempt < FETCH_ATTEMPTS then FETCH_ATTEMPTS - attempt else 0
  }

  function WatchRank(watch: Watch): nat {
    (if watch.wakes == 0 then 3 else 0) +
    match watch
    case Arming(_) => 2
    case Looking(_, _) => 1
    case Asleep(_, _) => 0
  }

  /** Each step of an owner settles its fill or brings the settlement one step nearer;
      nobody else's step delays it. */
  lemma OwnerAdvances(chain: Chain, s: State, a: Action, f: FillId)
    requires Inv(chain, s) && Enabled(s, a) && f < |s.fills| && s.fills[f].state.Unresolved?
    ensures var s' := Apply(chain, s, a);
            var o := s.fills[f].owner;
            && o < |s.tasks| && o < |s'.tasks| && f < |s'.fills| && s'.fills[f].owner == o
            && (s'.fills[f].state.Unresolved? ==>
                  Rank(s'.tasks[o].pc) + (if Actor(a) == Some(o) then 1 else 0) <= Rank(s.tasks[o].pc))
  {
    assert FillOk(s, f);
    var o := s.fills[f].owner;
    assert TaskOk(chain, s, o);
    FillsOnlyGrow(chain, s, a);
    if Actor(a) != Some(o) { OthersStay(chain, s, a, o); }
  }

  /** An owner is never stuck: some step of it, other than being cancelled, is enabled. */
  lemma OwnerCanStep(chain: Chain, s: State, f: FillId)
    requires Inv(chain, s) && f < |s.fills| && s.fills[f].state.Unresolved?
    ensures exists a :: Enabled(s, a) && Actor(a) == Some(s.fills[f].owner) && !a.Cancel?
  {
    assert FillOk(s, f);
    var o := s.fills[f].owner;
    assert TaskOk(chain, s, o);
    var a :=
      match s.tasks[o].pc
      case Subscribing(_) => Subscribe(o, None)
      case Withdrawing(_) => Withdraw(o)
      case Checking(_, _) => Check(o)
      case Merging(_, _, _) => Merge(o)
      case Cleaning(_, _) => Clean(o)
      case Sending(_, _) => Send(o)
      case _ => RpcFail(o);
    assert Enabled(s, a);
  }

  function StepsOf(run: seq<Action>, t: TaskId): nat {
    if run == [] then 0
    else StepsOf(run[..|run| - 1], t) + if Actor(run[|run| - 1]) == Some(t) then 1 else 0
  }

  lemma {:induction false} RankPaysForSteps(chain: Chain, run: seq<Action>, more: seq<Action>, f: FillId)
    requires IsRun(chain, run) && IsRun(chain, run + more)
    requires f < |After(chain, run).fills| && f < |After(chain, run + more).fills|
    requires After(chain, run + more).fills[f].state.Unresolved?
    ensures var s, s' := After(chain, run), After(chain, run + more);
            var o := s.fills[f].owner;
            && s.fills[f].state.Unresolved? && s'.fills[f].owner == o && o < |s.tasks| && o < |s'.tasks|
            && StepsOf(more, o) + Rank(s'.tasks[o].pc) <= Rank(s.tasks[o].pc)
  {
    if more == [] {
      assert run + more == run;
      RunKeeps(chain, run);
      assert FillOk(After(chain, run), f);
    } else {
      var most, a := more[..|more| - 1], more[|more| - 1];
      assert (run + more)[..|run + more| - 1] == run + most;
      var s := After(chain, run + most);
      RunKeeps(chain, run + most);
      FillsOnlyGrow(chain, s, a);
      FillsOnlyGrowOver(chain, run, most);
      RankPaysForSteps(chain, run, most, f);
      OwnerAdvances(chain, s, a, f);
    }
  }

  lemma OwnerRank(chain: Chain, s: State, f: FillId)
    requires Inv(chain, s) && f < |s.fills| && s.fills[f].state.Unresolved?
    ensures s.fills[f].owner < |s.tasks| && 1 <= Rank(s.tasks[s.fills[f].owner].pc) <= 14
  {
    assert FillOk(s, f);
    assert TaskOk(chain, s, s.fills[f].owner);
  }

  /** Coalescing with progress: a fill is settled within 14 steps of its owner, whatever the
      other tasks, the updater and the environment do in between. */
  lemma SettledWithin(chain: Chain, run: seq<Action>, more: seq<Action>, f: FillId)
    requires IsRun(chain, run) && IsRun(chain, run + more)
    requires f < |After(chain, run).fills| && f < |After(chain, run + more).fills|
    requires StepsOf(more, After(chain, run).fills[f].owner) >= 14
    ensures !After(chain, run + more).fills[f].state.Unresolved?
  {
    if After(chain, run + more).fills[f].state.Unresolved? {
      RankPaysForSteps(chain, run, more, f);
      RunKeeps(chain, run);
      RunKeeps(chain, run + more);
      OwnerRank(chain, After(chain, run), f);
      OwnerRank(chain, After(chain, run + more), f);
    }
  }

  lemma FillsOnlyGrow(chain: Chain, s: State, a: Action)
    requires Inv(chain, s) && Enabled(s, a)
    ensures var s' := Apply(chain, s, a);
            |s.fills| <= |s'.fills| && forall f | 0 <= f < |s.fills| :: SameFill(s.fills[f], s'.fills[f])
  {
    if Actor(a).Some? {
      assert TaskOk(chain, s, a.t);
    }
  }

  lemma FillCountGrows(chain: Chain, s: State, a: Action)
    requires Enabled(s, a)
    ensures |s.fills| <= |Apply(chain, s, a).fills|
  {
  }

  lemma LastStepGrows(chain: Chain, before: seq<Action>, run: seq<Action>)
    requires IsRun(chain, before) && IsRun(chain, run) && run != [] && before == run[..|run| - 1]
    ensures |After(chain, before).fills| <= |After(chain, run).fills|
  {
    FillCountGrows(chain, After(chain, before), run[|run| - 1]);
  }

  lemma {:induction false} FillsOnlyGrowOver(chain: Chain, run: seq<Action>, more: seq<Action>)
    requires IsRun(chain, run) && IsRun(chain, run + more)
    ensures |After(chain, run).fills| <= |After(chain, run + more).fills|
  {
    if more == [] {
      assert run + more == run;
    } else {
      var most := more[..|more| - 1];
      assert run + most == (run + more)[..|run + more| - 1];
      FillsOnlyGrowOver(chain, run, most);
      LastStepGrows(chain, run + most, run + more);
    }
  }

  /** Within one residence an entry only moves to later slots and forgets no observation. */
  lemma ResidenceOnlyAdvances(chain: Chain, s: State, a: Action, k: Pubkey)
    requires Inv(chain, s) && Enabled(s, a) && k in s.db
    requires var s' := Apply(chain, s, a); k in s'.db && s'.db[k].home == s.db[k].home
    ensures var s' := Apply(chain, s, a);
            s.db[k].entry.slot <= s'.db[k].entry.slot && s.db[k].seen <= s'.db[k].seen
  {
    assert CellOk(chain, s, k);
    if Quiet(a) {
      QuietKeepsMap(chain, s, a);
    } else if Actor(a).Some? {
      assert TaskOk(chain, s, a.t);
    }
  }

  lemma {:induction false} NoChangeBetween(chain: Chain, k: Pubkey, lo: nat, hi: nat)
    requires lo <= hi
    requires forall c | lo < c <= hi :: chain(k, c) == chain(k, c - 1)
    ensures chain(k, lo) == chain(k, hi)
  {
    if lo < hi { NoChangeBetween(chain, k, lo, hi - 1); }
  }

  /** Convergence over every interleaving: a resident entry is the latest observation
      delivered to it, so once one observation at `from` or later and every change of the
      account after `from` and up to `until` have been delivered, it holds the chain's
      record at `until` (or at a slot beyond it). */
  lemma Converges(chain: Chain, run: seq<Action>, k: Pubkey, from: nat, until: nat)
    requires IsRun(chain, run) && k in After(chain, run).db
    requires exists x :: x in After(chain, run).db[k].seen && x >= from
    requires forall c | from < c <= until && chain(k, c) != chain(k, c - 1) :: c in After(chain, run).db[k].seen
    ensures var cell := After(chain, run).db[k];
            && cell.entry.slot >= from && cell.entry.slot in cell.seen
            && (forall x <- cell.seen :: x <= cell.entry.slot)
            && cell.entry.record == chain(k, cell.entry.slot)
            && (cell.entry.slot <= until ==> cell.entry.record == chain(k, until))
  {
    RunKeeps(chain, run);
    var s := After(chain, run);
    assert CellOk(chain, s, k);
    var slot := s.db[k].entry.slot;
    if slot <= until {
      forall c | slot < c <= until ensures chain(k, c) == chain(k, c - 1) {
        assert c !in s.db[k].seen;
      }
      NoChangeBetween(chain, k, slot, until);
    }
  }

  /** An admitted merge answers with what the entry then holds, and a successful fetch
      anchors the residence it was made for, whether its owner made it or a later caller
      that found the owner's fetch had failed. */
  lemma MergeServesAndAnchors(chain: Chain, s: State, t: TaskId)
    requires Inv(chain, s) && Enabled(s, Merge(t)) && s.tasks[t].key in s.db
    requires !Blocks(s.db[s.tasks[t].key].entry, s.tasks[t].pc.own)
    ensures var s', k, pc := Apply(chain, s, Merge(t)), s.tasks[t].key, s.tasks[t].pc;
            && s'.tasks[t].pc.answer == ToAnswer(t, s'.db[k].entry)
            && s'.db[k].entry.slot >= pc.fetched.slot
            && pc.lease.Some?
            && (pc.lease.value.home == s.db[k].home && pc.lease.value.from.Some? && pc.fetched.slot != 0 ==>
                  s'.db[k].anchor == pc.lease.value.from)
            && (pc.own == Some(s.db[k].home) && pc.fetched.slot != 0 ==> s'.db[k].anchor.Some?)
  {
    assert TaskOk(chain, s, t) && CellOk(chain, s, s.tasks[t].key);
  }

  /** Coherence: once a fetch made for an entry whose owner subscribed at slot `from` has been
      merged into it, the entry is as recent as `from` minus the rollback; if the stream also
      delivered every change after that and up to `until`, it holds the chain's record at
      `until` (or at a slot beyond it). */
  lemma Coherent(chain: Chain, run: seq<Action>, k: Pubkey, from: nat, until: nat)
    requires IsRun(chain, run) && k in After(chain, run).db
    requires After(chain, run).db[k].anchor == Some(from)
    requires forall c: nat | from < c + 8 && 0 < c <= until && chain(k, c) != chain(k, c - 1) ::
               c in After(chain, run).db[k].seen
    ensures var e := After(chain, run).db[k].entry;
            && e.slot + 8 >= from
            && e.record == chain(k, e.slot)
            && (e.slot <= until ==> e.record == chain(k, until))
  {
    RunKeeps(chain, run);
    assert CellOk(chain, After(chain, run), k);
    var e := After(chain, run).db[k].entry;
    var low := if from >= 8 then from - 8 else 0;
    Converges(chain, run, k, low, until);
  }
}
