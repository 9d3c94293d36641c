/** What one call of `get_record` does over a run: what it serves, what it waits for and what
    it leaves in the cache. */
module GetRecord {
  import opened RouterTypes
  import opened CacheEntry
  import opened FillProtocol
  import opened FillInvariant
  import opened FillTheorems
  import opened WakeUps
  import opened Provenance

  /** The state in which step `i` of a run is taken. */
  function StateAt(chain: Chain, run: seq<Action>, i: nat): State
    requires IsRun(chain, run) && i <= |run|
  {
    PrefixIsRun(chain, run, i);
    After(chain, run[..i])
  }

  lemma {:induction false} StateBefore(chain: Chain, run: seq<Action>, i: nat)
    requires IsRun(chain, run) && i < |run| - 1 && IsRun(chain, run[..|run| - 1])
    ensures StateAt(chain, run[..|run| - 1], i) == StateAt(chain, run, i)
  {
    assert run[..|run| - 1][..i] == run[..i];
  }

  // ---- An initialised entry is served as it is ----

  /** A call that has returned takes no more steps. */
  lemma DoneStays(chain: Chain, s: State, a: Action, t: TaskId)
    requires Enabled(s, a) && t < |s.tasks| && s.tasks[t].pc.Done?
    ensures Actor(a) != Some(t)
    ensures t < |Apply(chain, s, a).tasks| && Apply(chain, s, a).tasks[t] == s.tasks[t]
  {
    if Actor(a) != Some(t) { OthersStay(chain, s, a, t); }
  }

  predicate Finds(s: State, t: TaskId, e: Entry) {
    t < |s.tasks| && s.tasks[t].key in s.db && s.db[s.tasks[t].key].entry == e
  }

  predicate Returned(s: State, t: TaskId, answer: Answer) {
    t < |s.tasks| && s.tasks[t].pc.Done? && s.tasks[t].pc.answer == answer
  }

  lemma ReadReturns(chain: Chain, s: State, t: TaskId, e: Entry)
    requires Enabled(s, ReadEntry(t)) && Finds(s, t, e) && e.slot != 0
    ensures Returned(Apply(chain, s, ReadEntry(t)), t, Answer(e.record, AtSlot(e.slot)))
  {
  }

  /** The call takes no step after step `i`. */
  predicate RestsAfter(run: seq<Action>, i: nat, t: TaskId) {
    forall j | i < j < |run| :: Actor(run[j]) != Some(t)
  }

  lemma RestsOn(run: seq<Action>, i: nat, t: TaskId)
    requires i < |run| - 1 && RestsAfter(run[..|run| - 1], i, t) && Actor(run[|run| - 1]) != Some(t)
    ensures RestsAfter(run, i, t)
  {
    assert run == run[..|run| - 1] + [run[|run| - 1]];
  }

  lemma ReturnedStays(chain: Chain, s: State, a: Action, t: TaskId, answer: Answer)
    requires Enabled(s, a) && Returned(s, t, answer)
    ensures Returned(Apply(chain, s, a), t, answer) && Actor(a) != Some(t)
  {
    DoneStays(chain, s, a, t);
  }

  /** A call that finds an initialised entry returns its record and never asks the RPC. */
  lemma {:induction false} ReadServes(chain: Chain, run: seq<Action>, i: nat, t: TaskId, e: Entry)
    requires IsRun(chain, run) && i < |run| && run[i] == ReadEntry(t)
    requires Finds(StateAt(chain, run, i), t, e) && e.slot != 0
    ensures Returned(After(chain, run), t, Answer(e.record, AtSlot(e.slot)))
    ensures RestsAfter(run, i, t)
  {
    var before, a := run[..|run| - 1], run[|run| - 1];
    if i == |run| - 1 {
      ReadReturns(chain, After(chain, before), t, e);
    } else {
      StateBefore(chain, run, i);
      ReadServes(chain, before, i, t, e);
      ReturnedStays(chain, After(chain, before), a, t, Answer(e.record, AtSlot(e.slot)));
      RestsOn(run, i, t);
    }
  }

  // ---- A pending fill is waited for ----

  /** The call waits for `f`, or has returned what `f` was resolved with, or was cancelled. */
  predicate WaitsFor(s: State, t: TaskId, f: FillId) {
    && t < |s.tasks|
    && match s.tasks[t].pc
       case Awaiting(g) => g == f
       case Done(answer, via) => via == Some(f)
       case Gone => true
       case _ => false
  }

  lemma ReadWaits(chain: Chain, s: State, t: TaskId, f: FillId)
    requires Enabled(s, ReadEntry(t)) && HoldsAt(s, s.tasks[t].key, f)
    ensures WaitsFor(Apply(chain, s, ReadEntry(t)), t, f)
  {
  }

  lemma WaitingStays(chain: Chain, s: State, a: Action, t: TaskId, f: FillId)
    requires Enabled(s, a) && WaitsFor(s, t, f) && a != SeeDropped(t)
    ensures WaitsFor(Apply(chain, s, a), t, f)
    ensures Actor(a) == Some(t) ==> a.SeeResolved? || a.Cancel?
  {
    if Actor(a) != Some(t) { OthersStay(chain, s, a, t); }
  }

  /** A call that finds a pending fill makes no request of its own, be it to the map, the
      stream or the RPC, unless it sees that fill dropped. */
  lemma {:induction false} PendingIsAwaited(chain: Chain, run: seq<Action>, i: nat, t: TaskId, f: FillId)
    requires IsRun(chain, run) && i < |run| && run[i] == ReadEntry(t)
    requires var s := StateAt(chain, run, i); t < |s.tasks| && HoldsAt(s, s.tasks[t].key, f)
    requires forall j | i < j < |run| :: run[j] != SeeDropped(t)
    ensures WaitsFor(After(chain, run), t, f)
    ensures forall j | i < j < |run| && Actor(run[j]) == Some(t) :: run[j].SeeResolved? || run[j].Cancel?
  {
    var before, a := run[..|run| - 1], run[|run| - 1];
    if i == |run| - 1 {
      ReadWaits(chain, After(chain, before), t, f);
    } else {
      StateBefore(chain, run, i);
      forall j | i < j < |before| ensures before[j] != SeeDropped(t) { assert before[j] == run[j]; }
      PendingIsAwaited(chain, before, i, t, f);
      WaitingStays(chain, After(chain, before), a, t, f);
      forall j | i < j < |run| && Actor(run[j]) == Some(t) ensures run[j].SeeResolved? || run[j].Cancel? {
        if j < |before| { assert before[j] == run[j]; }
      }
    }
  }

  // ---- What is fetched or streamed reaches the cache ----

  /** The entry under `k` is at slot `n` or later. */
  predicate AtLeastAt(s: State, k: Pubkey, n: nat) {
    k in s.db && s.db[k].entry.slot >= n
  }

  /** Only an eviction or a clear removes an initialised entry or takes it back. */
  lemma AtLeastStays(chain: Chain, s: State, a: Action, k: Pubkey, n: nat)
    requires Inv(chain, s) && Enabled(s, a) && n > 0 && AtLeastAt(s, k, n) && !ThrowsOut(a, k)
    ensures AtLeastAt(Apply(chain, s, a), k, n)
  {
    if Quiet(a) {
      QuietKeepsMap(chain, s, a);
    } else if Actor(a).Some? {
      assert TaskOk(chain, s, a.t);
    }
  }

  lemma UpdateInstalls(chain: Chain, s: State, k: Pubkey, n: nat)
    requires Enabled(s, Update(k, n)) && k in s.db
    ensures AtLeastAt(Apply(chain, s, Update(k, n)), k, n)
  {
  }

  /** An update of a resident key is in the cache from then on, until the key is thrown out. */
  lemma {:induction false} UpdateReachesCache(chain: Chain, run: seq<Action>, i: nat, k: Pubkey, n: nat)
    requires IsRun(chain, run) && i < |run| && run[i] == Update(k, n) && n > 0
    requires k in StateAt(chain, run, i).db
    requires forall j | i < j < |run| :: !ThrowsOut(run[j], k)
    ensures AtLeastAt(After(chain, run), k, n)
  {
    var before, a := run[..|run| - 1], run[|run| - 1];
    if i == |run| - 1 {
      UpdateInstalls(chain, After(chain, before), k, n);
    } else {
      StateBefore(chain, run, i);
      forall j | i < j < |before| ensures !ThrowsOut(before[j], k) { assert before[j] == run[j]; }
      RunKeeps(chain, before);
      UpdateReachesCache(chain, before, i, k, n);
      AtLeastStays(chain, After(chain, before), a, k, n);
    }
  }

  /** The action ties the call to the entry under its key: its check finds its own placeholder,
      or its read finds an entry with nothing pending. */
  predicate Commits(s: State, a: Action, t: TaskId) {
    && t < |s.tasks| && s.tasks[t].key in s.db
    && (a == Check(t) || a == ReadEntry(t))
    && var own := Owned(s.tasks[t].pc);
       if a == Check(t) then own.Some? && HoldsAt(s, s.tasks[t].key, own.value)
       else s.db[s.tasks[t].key].entry.pendingFill.None?
  }

  /** What a committed call still has to bring into the entry, or has brought there. */
  predicate Bound(s: State, t: TaskId) {
    && t < |s.tasks|
    && var k := s.tasks[t].key;
       match s.tasks[t].pc
       case Racing(f, _, _, _) => k in s.db && s.db[k].home == f
       case Fetching(own, _, _, _) => own.None? && k in s.db && s.db[k].entry.pendingFill.None?
       case Merging(own, _, _) => k in s.db && !Blocks(s.db[k].entry, own)
       case Cleaning(_, answer) => Brought(s, k, answer)
       case Sending(_, answer) => Brought(s, k, answer)
       case Done(answer, _) => Brought(s, k, answer)
       case Gone => true
       case _ => false
  }

  predicate Brought(s: State, k: Pubkey, answer: Answer) {
    answer.source.AtSlot? ==> AtLeastAt(s, k, answer.source.slot)
  }

  lemma CommitBinds(chain: Chain, s: State, a: Action, t: TaskId)
    requires Inv(chain, s) && Enabled(s, a) && Commits(s, a, t)
    ensures Bound(Apply(chain, s, a), t)
  {
    assert TaskOk(chain, s, t) && CellOk(chain, s, s.tasks[t].key);
  }

  lemma OwnStepBinds(chain: Chain, s: State, a: Action, t: TaskId)
    requires Inv(chain, s) && Enabled(s, a) && Actor(a) == Some(t) && Bound(s, t)
    ensures Bound(Apply(chain, s, a), t)
  {
    assert TaskOk(chain, s, t);
    if s.tasks[t].key in s.db { assert CellOk(chain, s, s.tasks[t].key); }
  }

  /** The fill pending under `k`, if any, is unresolved and not owned by the one who acts. */
  predicate Undisturbed(s: State, a: Action, k: Pubkey)
    requires k in s.db
  {
    var fill := s.db[k].entry.pendingFill;
    fill.Some? ==> fill.value < |s.fills| && s.fills[fill.value].state.Unresolved? &&
                   Actor(a) != Some(s.fills[fill.value].owner)
  }

  /** The residence goes on, and its entry gets no new fill. */
  predicate GoesOn(s: State, s': State, k: Pubkey)
    requires k in s.db
  {
    && k in s'.db && s'.db[k].home == s.db[k].home
    && (s'.db[k].entry.pendingFill == s.db[k].entry.pendingFill || s'.db[k].entry.pendingFill.None?)
  }

  lemma CallersLeave(chain: Chain, s: State, a: Action, k: Pubkey)
    requires Inv(chain, s) && Enabled(s, a) && Actor(a).Some? && k in s.db && !ThrowsOut(a, k) && Undisturbed(s, a, k)
    ensures GoesOn(s, Apply(chain, s, a), k)
  {
    assert CellOk(chain, s, k) && TaskOk(chain, s, a.t);
  }

  /** An entry whose fill is not given up stays while it is not thrown out, and gets no fill. */
  lemma OthersLeave(chain: Chain, s: State, a: Action, k: Pubkey)
    requires Inv(chain, s) && Enabled(s, a) && k in s.db && !ThrowsOut(a, k) && Undisturbed(s, a, k)
    ensures GoesOn(s, Apply(chain, s, a), k)
  {
    if Quiet(a) {
      QuietKeepsMap(chain, s, a);
    } else if Actor(a).Some? {
      CallersLeave(chain, s, a, k);
    }
  }

  lemma BroughtStays(chain: Chain, s: State, a: Action, k: Pubkey, answer: Answer)
    requires Inv(chain, s) && Enabled(s, a) && Brought(s, k, answer) && !ThrowsOut(a, k)
    requires answer.source.AtSlot? ==> answer.source.slot > 0
    ensures Brought(Apply(chain, s, a), k, answer)
  {
    if answer.source.AtSlot? { AtLeastStays(chain, s, a, k, answer.source.slot); }
  }

  lemma OtherStepBinds(chain: Chain, s: State, a: Action, t: TaskId)
    requires Inv(chain, s) && Enabled(s, a) && Bound(s, t) && Actor(a) != Some(t) && !ThrowsOut(a, s.tasks[t].key)
    ensures Bound(Apply(chain, s, a), t)
  {
    var k, pc := s.tasks[t].key, s.tasks[t].pc;
    OthersStay(chain, s, a, t);
    assert TaskOk(chain, s, t);
    if pc.Cleaning? || pc.Sending? || pc.Done? {
      BroughtStays(chain, s, a, k, pc.answer);
    } else if !pc.Gone? {
      assert CellOk(chain, s, k);
      OthersLeave(chain, s, a, k);
    }
  }

  lemma {:induction false} StaysBound(chain: Chain, run: seq<Action>, i: nat, t: TaskId)
    requires IsRun(chain, run) && i < |run| && Commits(StateAt(chain, run, i), run[i], t)
    requires forall j | i < j < |run| :: !ThrowsOut(run[j], StateAt(chain, run, i).tasks[t].key)
    ensures Bound(After(chain, run), t)
    ensures After(chain, run).tasks[t].key == StateAt(chain, run, i).tasks[t].key
  {
    var before, a := run[..|run| - 1], run[|run| - 1];
    var s := After(chain, before);
    RunKeeps(chain, before);
    KeysStay(chain, s, a);
    if i == |run| - 1 {
      CommitBinds(chain, s, a, t);
    } else {
      StateBefore(chain, run, i);
      forall j | i < j < |before| ensures !ThrowsOut(before[j], StateAt(chain, run, i).tasks[t].key) {
        assert before[j] == run[j];
      }
      StaysBound(chain, before, i, t);
      if Actor(a) == Some(t) {
        OwnStepBinds(chain, s, a, t);
      } else {
        OtherStepBinds(chain, s, a, t);
      }
    }
  }

  /** A fetch reaches the cache: whoever checked its placeholder, or read an entry with nothing
      pending, and returned what the chain had at some slot, has left the entry at that slot
      or a later one, unless the entry was evicted or cleared in between. */
  lemma {:induction false} FetchReachesCache(chain: Chain, run: seq<Action>, i: nat, t: TaskId)
    requires IsRun(chain, run) && i < |run| && Commits(StateAt(chain, run, i), run[i], t)
    requires var s := After(chain, run);
             t < |s.tasks| && s.tasks[t].pc.Done? && s.tasks[t].pc.answer.source.AtSlot? &&
             forall j | i < j < |run| :: !ThrowsOut(run[j], s.tasks[t].key)
    ensures var s := After(chain, run);
            var k, answer := s.tasks[t].key, s.tasks[t].pc.answer;
            && k in s.db && s.db[k].entry.slot >= answer.source.slot > 0
            && s.db[k].entry.record == chain(k, s.db[k].entry.slot)
  {
    var s := After(chain, run);
    KeyAt(chain, run, i, t);
    StaysBound(chain, run, i, t);
    RunKeeps(chain, run);
    assert TaskOk(chain, s, t) && CellOk(chain, s, s.tasks[t].key);
  }

  lemma {:induction false} KeyAt(chain: Chain, run: seq<Action>, i: nat, t: TaskId)
    requires IsRun(chain, run) && i <= |run| && t < |StateAt(chain, run, i).tasks|
    ensures t < |After(chain, run).tasks| && After(chain, run).tasks[t].key == StateAt(chain, run, i).tasks[t].key
  {
    if i == |run| {
      assert run[..i] == run;
    } else {
      var before := run[..|run| - 1];
      if i < |run| - 1 {
        StateBefore(chain, run, i);
      } else {
        assert before[..i] == run[..i];
      }
      KeyAt(chain, before, i, t);
      KeysStay(chain, After(chain, before), run[|run| - 1]);
    }
  }

  /** A key enters the map only as the placeholder of a new fill, inserted by a call on that
      key that found it missing; no merge and no update brings it in. */
  lemma EntersAsPlaceholder(chain: Chain, s: State, a: Action, k: Pubkey)
    requires Enabled(s, a) && k !in s.db && k in Apply(chain, s, a).db
    ensures a.Insert? && s.tasks[a.t].key == k
    ensures var s' := Apply(chain, s, a);
            && s'.db[k].entry == Entry(0, None, None, Some(|s.fills|))
            && s'.fills == s.fills + [Fill(a.t, k, Unresolved, 0)]
  {
  }

  // ---- A failed subscription leaves nothing behind ----

  /** No entry belongs to the residence that `f` began. */
  predicate Departed(s: State, f: FillId) {
    f < |s.fills| && forall k <- s.db :: s.db[k].home != f
  }

  lemma DepartedStays(chain: Chain, s: State, a: Action, f: FillId)
    requires Enabled(s, a) && Departed(s, f)
    ensures Departed(Apply(chain, s, a), f)
  {
  }

  /** The owner of `f` still has to withdraw its placeholder, has given `f` up, or has left
      no entry behind. */
  predicate Withdraws(s: State, t: TaskId, f: FillId) {
    && t < |s.tasks| && f < |s.fills|
    && (s.tasks[t].pc == Withdrawing(f) || Departed(s, f) || s.fills[f].state.Dropped?)
  }

  lemma OwnEntryOnly(chain: Chain, s: State, k: Pubkey, f: FillId)
    requires Inv(chain, s) && f < |s.fills| && HoldsAt(s, k, f)
    ensures forall j <- s.db :: j != k ==> s.db[j].home != f
  {
    assert CellOk(chain, s, k);
    forall j <- s.db ensures j != k ==> s.db[j].home != f { assert CellOk(chain, s, j); }
  }

  lemma WithdrawalStays(chain: Chain, s: State, a: Action, t: TaskId, f: FillId)
    requires Inv(chain, s) && Enabled(s, a) && Withdraws(s, t, f)
    ensures Withdraws(Apply(chain, s, a), t, f)
  {
    FillsOnlyGrow(chain, s, a);
    if Departed(s, f) {
      DepartedStays(chain, s, a, f);
    } else if s.tasks[t].pc == Withdrawing(f) {
      if Actor(a) != Some(t) { OthersStay(chain, s, a, t); }
      if a == Withdraw(t) && HoldsAt(s, s.tasks[t].key, f) { OwnEntryOnly(chain, s, s.tasks[t].key, f); }
    }
  }

  lemma {:induction false} StaysWithdrawn(chain: Chain, run: seq<Action>, i: nat, t: TaskId, f: FillId)
    requires IsRun(chain, run) && i < |run| && run[i] == Subscribe(t, None)
    requires t < |StateAt(chain, run, i).tasks| && StateAt(chain, run, i).tasks[t].pc == Subscribing(f)
    ensures Withdraws(After(chain, run), t, f)
  {
    var before, a := run[..|run| - 1], run[|run| - 1];
    var s := After(chain, before);
    RunKeeps(chain, before);
    if i == |run| - 1 {
      assert TaskOk(chain, s, t);
    } else {
      StateBefore(chain, run, i);
      StaysWithdrawn(chain, before, i, t, f);
      WithdrawalStays(chain, s, a, t, f);
    }
  }

  /** A call whose subscription failed and that served its own fill has left no entry of its
      own in the cache: without a subscription nothing would keep it coherent. */
  lemma {:induction false} UnsubscribedLeavesNothing(chain: Chain, run: seq<Action>, i: nat, t: TaskId, f: FillId)
    requires IsRun(chain, run) && i < |run| && run[i] == Subscribe(t, None)
    requires t < |StateAt(chain, run, i).tasks| && StateAt(chain, run, i).tasks[t].pc == Subscribing(f)
    requires var s := After(chain, run); t < |s.tasks| && s.tasks[t].pc.Done? && s.tasks[t].pc.via == Some(f)
    ensures Departed(After(chain, run), f)
  {
    StaysWithdrawn(chain, run, i, t, f);
    RunKeeps(chain, run);
    assert TaskOk(chain, After(chain, run), t);
  }

  // ---- How old an RPC answer may be ----

  /** An owner that subscribed at slot `from` accepts RPC answers from 8 slots before that. */
  lemma OwnerFloor(chain: Chain, s: State, t: TaskId, from: nat, n: nat)
    requires Inv(chain, s) && Enabled(s, Check(t)) && s.tasks[t].pc.from == from
    requires HoldsAt(s, s.tasks[t].key, s.tasks[t].pc.f)
    ensures Enabled(Apply(chain, s, Check(t)), RpcOk(t, n)) <==> n > 0 && n + 8 >= from
  {
  }

  /** So does a caller that reads the entry after the owner's fetch has failed. */
  lemma ReaderFloor(chain: Chain, s: State, t: TaskId, n: nat)
    requires Inv(chain, s) && Enabled(s, ReadEntry(t)) && s.tasks[t].key in s.db
    requires var e := s.db[s.tasks[t].key].entry; e.slot == 0 && e.pendingFill.None?
    ensures var from := s.db[s.tasks[t].key].from;
            Enabled(Apply(chain, s, ReadEntry(t)), RpcOk(t, n)) <==> n > 0 && (from.Some? ==> n + 8 >= from.value)
  {
    assert CellOk(chain, s, s.tasks[t].key);
  }

  /** An owner that withdrew its placeholder takes any answer. */
  lemma WithdrawnFloor(chain: Chain, s: State, t: TaskId, n: nat)
    requires Inv(chain, s) && Enabled(s, Withdraw(t)) && HoldsAt(s, s.tasks[t].key, s.tasks[t].pc.f)
    ensures Enabled(Apply(chain, s, Withdraw(t)), RpcOk(t, n)) <==> n > 0
  {
  }

  /** The slot an entry goes back to is the one its owner's subscription returned. */
  lemma SubscriptionSlot(chain: Chain, s: State, t: TaskId, from: Option<nat>)
    requires Inv(chain, s) && Enabled(s, Subscribe(t, from))
    ensures var s' := Apply(chain, s, Subscribe(t, from));
            && (from.None? <==> Enabled(s', Withdraw(t)))
            && (from.Some? <==> Enabled(s', Check(t)))
            && (from.Some? ==> s'.tasks[t].pc.from == from.value)
  {
    assert TaskOk(chain, s, t);
  }
}
