/** The inductive invariant of the cache-fill protocol and its proof, one action at a time. */
module FillInvariant {
  import opened RouterTypes
  import opened CacheEntry
  import opened FillProtocol

  /** A task other than the one that acts stays as it is. */
  lemma OthersStay(chain: Chain, s: State, a: Action, t: TaskId)
    requires Enabled(s, a) && t < |s.tasks| && Actor(a) != Some(t)
    ensures var s' := Apply(chain, s, a); t < |s'.tasks| && s'.tasks[t] == s.tasks[t]
  {
  }

  /** The entry under the fill's key still carries the fill. */
  predicate Held(s: State, f: FillId)
    requires f < |s.fills|
  {
    var k := s.fills[f].key;
    k in s.db && s.db[k].entry.pendingFill == Some(f)
  }

  predicate Owns(s: State, t: TaskId, f: FillId)
    requires t < |s.tasks|
  {
    && f < |s.fills|
    && s.fills[f].owner == t
    && s.fills[f].key == s.tasks[t].key
    && s.fills[f].state.Unresolved?
  }

  /** Until its owner cleans up, a placeholder keeps its fill while it stays uninitialised. */
  predicate Parked(s: State, f: FillId)
    requires f < |s.fills|
  {
    var k := s.fills[f].key;
    k in s.db && s.db[k].home == f && s.db[k].entry.slot == 0 ==> s.db[k].entry.pendingFill == Some(f)
  }

  /** The record installed in the residence that fill `f` began. */
  predicate Installed(s: State, f: FillId)
    requires f < |s.fills|
  {
    var k := s.fills[f].key;
    k in s.db && s.db[k].home == f && s.db[k].entry.slot != 0
  }

  /** Every armed notification captured a past value of the counter, and the owner never
      sleeps on an installed record unless the wake-up is on its way. */
  predicate WatchOk(s: State, f: FillId, watch: Watch)
    requires f < |s.fills|
  {
    match watch
    case Arming(w) => w <= s.fills[f].notified
    case Looking(w, mark) => w <= mark <= s.fills[f].notified
    case Asleep(w, mark) =>
      && w <= mark <= s.fills[f].notified
      && (Installed(s, f) ==> s.updater == Notifying(f) || s.fills[f].notified > mark)
  }

  /** An answer is the chain's record at a slot, or the `None` of a fetch whose attempts all failed. */
  predicate AnswerOk(chain: Chain, s: State, k: Pubkey, answer: Answer) {
    match answer.source
    case AtSlot(slot) => slot > 0 && answer.record == chain(k, slot)
    case Exhausted(b) =>
      answer.record.None? && b < |s.tasks| && s.tasks[b].key == k && s.tasks[b].failures == FETCH_ATTEMPTS
  }

  predicate FetchedOk(chain: Chain, task: Task, fetched: Entry) {
    && fetched.pendingMin.None? && fetched.pendingFill.None?
    && (fetched.slot == 0 ==> fetched.record.None? && task.failures == FETCH_ATTEMPTS)
    && (fetched.slot != 0 ==> fetched.record == chain(task.key, fetched.slot))
  }

  /** An observation recent enough for a subscription made at the given slot. */
  predicate Anchors(slot: nat, since: Option<nat>) {
    slot != 0 && since.Some? ==> slot + MIN_CONTEXT_SLOT_ROLLBACK >= since.value
  }

  predicate TaskOk(chain: Chain, s: State, t: TaskId)
    requires t < |s.tasks|
  {
    var task := s.tasks[t];
    && task.failures <= FETCH_ATTEMPTS
    && match task.pc
       case Reading => task.failures == 0
       case Missed => task.failures == 0
       case Awaiting(f) => task.failures == 0 && f < |s.fills| && s.fills[f].key == task.key
       case Retiring(f) =>
         task.failures == 0 && f < |s.fills| && s.fills[f].key == task.key && s.fills[f].state.Dropped?
       case Subscribing(f) => task.failures == 0 && Owns(s, t, f) && Parked(s, f)
       case Withdrawing(f) => task.failures == 0 && Owns(s, t, f) && Parked(s, f)
       case Checking(f, _) => task.failures == 0 && Owns(s, t, f) && Parked(s, f)
       case Racing(f, _, attempt, watch) =>
         attempt == task.failures < FETCH_ATTEMPTS && Owns(s, t, f) && Parked(s, f) && WatchOk(s, f, watch)
       case Fetching(own, min, attempt, lease) =>
         attempt == task.failures < FETCH_ATTEMPTS && (lease.Some? ==> min == MinFrom(lease.value.from)) &&
         (own.None? ==> lease.Some?) &&
         (own.Some? ==> Owns(s, t, own.value) && !Held(s, own.value))
       case Merging(own, fetched, lease) =>
         FetchedOk(chain, task, fetched) && lease.Some? && Anchors(fetched.slot, lease.value.from) &&
         (own.Some? ==> lease.value.home == own.value && lease.value.from.Some? &&
                        Owns(s, t, own.value) && Parked(s, own.value))
       case Cleaning(f, answer) => Owns(s, t, f) && AnswerOk(chain, s, task.key, answer)
       case Sending(f, answer) => Owns(s, t, f) && AnswerOk(chain, s, task.key, answer) && !Held(s, f)
       case Done(answer, via) =>
         AnswerOk(chain, s, task.key, answer) &&
         (via.Some? ==> via.value < |s.fills| && s.fills[via.value].key == task.key &&
                        s.fills[via.value].state == Resolved(answer))
       case Gone => true
  }

  /** An unresolved fill has a live owner; a resolved one sits in no entry and has the
      answer its owner returned; a fill is notified at most once, after it left its entry. */
  predicate FillOk(s: State, f: FillId)
    requires f < |s.fills|
  {
    var fill := s.fills[f];
    && fill.owner < |s.tasks|
    && s.tasks[fill.owner].key == fill.key
    && (fill.state.Unresolved? ==> Owned(s.tasks[fill.owner].pc) == Some(f))
    && (fill.state.Resolved? ==> !Held(s, f) && s.tasks[fill.owner].pc == Done(fill.state.answer, Some(f)))
    && fill.notified <= 1
    && (Held(s, f) ==> fill.notified == 0 && s.updater != Notifying(f))
    && (s.updater == Notifying(f) ==> fill.notified == 0)
  }

  predicate CellOk(chain: Chain, s: State, k: Pubkey)
    requires k in s.db
  {
    var c := s.db[k];
    && c.home < |s.fills|
    && s.fills[c.home].key == k
    && WellFormed(c.entry)
    && (c.entry.pendingFill.Some? ==> c.entry.pendingFill.value == c.home)
    && (c.entry.slot != 0 ==> c.entry.record == chain(k, c.entry.slot) && c.entry.slot in c.seen)
    && (forall x <- c.seen :: 0 < x <= c.entry.slot)
    && (c.entry.slot == 0 ==> c.entry.pendingMin == MinFrom(c.from))
    && (c.anchor.Some? ==> c.entry.slot != 0 && Anchors(c.entry.slot, c.anchor))
  }

  ghost predicate Inv(chain: Chain, s: State) {
    && (forall t | 0 <= t < |s.tasks| :: TaskOk(chain, s, t))
    && (forall f | 0 <= f < |s.fills| :: FillOk(s, f))
    && (forall k {:trigger CellOk(chain, s, k)} | k in s.db :: CellOk(chain, s, k))
    && (s.updater.Notifying? ==> s.updater.fill < |s.fills|)
  }

  /** What no step ever takes back: tasks keep their keys and their exhausted fetches,
      fills keep their identity and their settled results. */
  ghost predicate Grows(s: State, s': State) {
    && |s.tasks| <= |s'.tasks| && |s.fills| <= |s'.fills|
    && (forall b | 0 <= b < |s.tasks| ::
          s'.tasks[b].key == s.tasks[b].key &&
          (s.tasks[b].failures == FETCH_ATTEMPTS ==> s'.tasks[b].failures == FETCH_ATTEMPTS))
    && (forall f | 0 <= f < |s.fills| :: SameFill(s.fills[f], s'.fills[f]))
  }

  predicate SameFill(f: Fill, f': Fill) {
    f'.owner == f.owner && f'.key == f.key && f'.notified >= f.notified &&
    (!f.state.Unresolved? ==> f'.state == f.state)
  }

  /** What the owner of `f` can see of the map and of its notification does not get worse. */
  predicate ViewKept(s: State, s': State, f: FillId, pc: PC)
    requires f < |s.fills| && f < |s'.fills|
  {
    && s'.fills[f].state == s.fills[f].state
    && (Held(s', f) ==> Held(s, f))
    && (Parked(s, f) && !pc.Cleaning? ==> Parked(s', f))
    && (Parked(s, f) && pc.Racing? && Installed(s', f) ==> Installed(s, f) || s'.updater == Notifying(f))
    && (s.updater == Notifying(f) ==> s'.updater == Notifying(f) || s'.fills[f].notified > s.fills[f].notified)
  }

  /** A task that does not move keeps its part of the invariant. */
  lemma TaskFrame(chain: Chain, s: State, s': State, u: TaskId)
    requires u < |s.tasks| && TaskOk(chain, s, u) && Grows(s, s') && s'.tasks[u] == s.tasks[u]
    requires Owned(s.tasks[u].pc).Some? ==> ViewKept(s, s', Owned(s.tasks[u].pc).value, s.tasks[u].pc)
    ensures TaskOk(chain, s', u)
  {
    if Owned(s.tasks[u].pc).Some? {
      var f := Owned(s.tasks[u].pc).value;
      assert SameFill(s.fills[f], s'.fills[f]);
    }
  }

  /** A fill that is not touched keeps its part of the invariant. */
  lemma FillFrame(s: State, s': State, f: FillId)
    requires f < |s.fills| && FillOk(s, f) && Grows(s, s') && s'.fills[f] == s.fills[f]
    requires var o := s.fills[f].owner;
             (s.fills[f].state.Unresolved? ==> Owned(s'.tasks[o].pc) == Owned(s.tasks[o].pc)) &&
             (s.tasks[o].pc.Done? ==> s'.tasks[o].pc == s.tasks[o].pc)
    requires Held(s', f) ==> Held(s, f)
    requires s'.updater == Notifying(f) ==> s.updater == Notifying(f)
    ensures FillOk(s', f)
  {
  }

  lemma SpawnKeeps(chain: Chain, s: State, k: Pubkey)
    requires Inv(chain, s)
    ensures Inv(chain, s.(tasks := s.tasks + [Task(k, Reading, 0)]))
  {
    var s' := s.(tasks := s.tasks + [Task(k, Reading, 0)]);
    forall u | 0 <= u < |s'.tasks| ensures TaskOk(chain, s', u) {
      if u < |s.tasks| { assert TaskOk(chain, s, u); TaskFrame(chain, s, s', u); }
    }
    forall f | 0 <= f < |s'.fills| ensures FillOk(s', f) { assert FillOk(s, f); FillFrame(s, s', f); }
    forall k <- s'.db ensures CellOk(chain, s', k) { assert CellOk(chain, s, k); }
  }

  /** Only one task moves: its fill, its key and the rest of the state stay. */
  lemma MoveKeeps(chain: Chain, s: State, t: TaskId, task: Task)
    requires Inv(chain, s) && t < |s.tasks|
    requires task.key == s.tasks[t].key
    requires s.tasks[t].failures == FETCH_ATTEMPTS ==> task.failures == FETCH_ATTEMPTS
    requires Owned(task.pc) == Owned(s.tasks[t].pc) && !s.tasks[t].pc.Done?
    requires TaskOk(chain, s.(tasks := s.tasks[t := task]), t)
    ensures Inv(chain, s.(tasks := s.tasks[t := task]))
  {
    var s' := s.(tasks := s.tasks[t := task]);
    forall u | 0 <= u < |s'.tasks| ensures TaskOk(chain, s', u) {
      if u != t { assert TaskOk(chain, s, u); TaskFrame(chain, s, s', u); }
    }
    forall f | 0 <= f < |s'.fills| ensures FillOk(s', f) { assert FillOk(s, f); FillFrame(s, s', f); }
    forall k <- s'.db ensures CellOk(chain, s', k) { assert CellOk(chain, s, k); }
  }

  /** Evictions, clears and removals of placeholders. */
  lemma RemoveKeeps(chain: Chain, s: State, keys: set<Pubkey>)
    requires Inv(chain, s)
    ensures Inv(chain, s.(db := s.db - keys))
  {
    var s' := s.(db := s.db - keys);
    forall u | 0 <= u < |s'.tasks| ensures TaskOk(chain, s', u) {
      assert TaskOk(chain, s, u);
      TaskFrame(chain, s, s', u);
    }
    forall f | 0 <= f < |s'.fills| ensures FillOk(s', f) { assert FillOk(s, f); FillFrame(s, s', f); }
    forall k <- s'.db ensures CellOk(chain, s', k) { assert CellOk(chain, s, k); }
  }

  /** When `t` settles its fill, no other task and no other fill notices. */
  lemma SettleFrame(chain: Chain, s: State, t: TaskId, own: FillId, to: FillState, pc: PC)
    requires t < |s.tasks| && Owns(s, t, own) && Owned(s.tasks[t].pc) == Some(own)
    ensures var s' := Goto(Settle(s, own, to), t, pc);
            && Grows(s, s')
            && (forall u {:trigger TaskOk(chain, s', u)} | 0 <= u < |s.tasks| && u != t && TaskOk(chain, s, u) ::
                  TaskOk(chain, s', u))
            && (forall f {:trigger FillOk(s', f)} | 0 <= f < |s.fills| && f != own && FillOk(s, f) :: FillOk(s', f))
  {
    var s' := Goto(Settle(s, own, to), t, pc);
    assert Grows(s, s');
    forall u | 0 <= u < |s.tasks| && u != t && TaskOk(chain, s, u) ensures TaskOk(chain, s', u) {
      TaskFrame(chain, s, s', u);
    }
    forall f | 0 <= f < |s.fills| && f != own && FillOk(s, f) ensures FillOk(s', f) {
      FillFrame(s, s', f);
    }
  }

  /** The owner publishes its answer. */
  lemma ResolveKeeps(chain: Chain, s: State, t: TaskId)
    requires Inv(chain, s) && t < |s.tasks| && s.tasks[t].pc.Sending? && s.tasks[t].pc.f < |s.fills|
    ensures Inv(chain, DoSend(s, t))
  {
    assert TaskOk(chain, s, t);
    var pc := s.tasks[t].pc;
    var s' := DoSend(s, t);
    SettleFrame(chain, s, t, pc.f, Resolved(pc.answer), Done(pc.answer, Some(pc.f)));
    assert FillOk(s, pc.f);
    assert FillOk(s', pc.f) && TaskOk(chain, s', t);
    forall k <- s'.db ensures CellOk(chain, s', k) { assert CellOk(chain, s, k); }
  }

  /** The owner loses its sender, by a `continue` or by cancellation. */
  lemma DropKeeps(chain: Chain, s: State, t: TaskId, pc: PC)
    requires Inv(chain, s) && t < |s.tasks| && Owned(s.tasks[t].pc).Some? && Owned(s.tasks[t].pc).value < |s.fills|
    requires pc == Gone || (pc == Reading && s.tasks[t].failures == 0)
    ensures Inv(chain, Goto(DropOwned(s, t), t, pc))
  {
    assert TaskOk(chain, s, t);
    var own := Owned(s.tasks[t].pc).value;
    var s' := Goto(DropOwned(s, t), t, pc);
    SettleFrame(chain, s, t, own, Dropped, pc);
    assert FillOk(s, own);
    assert FillOk(s', own) && TaskOk(chain, s', t);
    forall k <- s'.db ensures CellOk(chain, s', k) { assert CellOk(chain, s, k); }
  }

  lemma NotifyKeeps(chain: Chain, s: State)
    requires Inv(chain, s) && s.updater.Notifying? && s.updater.fill < |s.fills|
    ensures Inv(chain, DoNotify(s))
  {
    var s' := DoNotify(s);
    forall u | 0 <= u < |s'.tasks| ensures TaskOk(chain, s', u) {
      assert TaskOk(chain, s, u);
      TaskFrame(chain, s, s', u);
    }
    forall f | 0 <= f < |s'.fills| ensures FillOk(s', f) {
      assert FillOk(s, f);
      if f != s.updater.fill { FillFrame(s, s', f); }
    }
    forall k <- s'.db ensures CellOk(chain, s', k) { assert CellOk(chain, s, k); }
  }

  lemma UpdateKeeps(chain: Chain, s: State, k: Pubkey, slot: nat)
    requires Inv(chain, s) && s.updater.Idle?
    ensures Inv(chain, DoUpdate(s, k, slot, chain(k, slot)))
  {
    var s' := DoUpdate(s, k, slot, chain(k, slot));
    if k in s.db {
      assert CellOk(chain, s, k);
      forall u | 0 <= u < |s'.tasks| ensures TaskOk(chain, s', u) {
        assert TaskOk(chain, s, u);
        TaskFrame(chain, s, s', u);
      }
      forall f | 0 <= f < |s'.fills| ensures FillOk(s', f) {
        assert FillOk(s, f);
        if s'.updater != Notifying(f) { FillFrame(s, s', f); }
      }
      forall j <- s'.db ensures CellOk(chain, s', j) { assert CellOk(chain, s, j); }
    }
  }

  /** A cell is rewritten in place: only the owner of its residence can tell. */
  lemma RewriteKeeps(chain: Chain, s: State, k: Pubkey, c: Cell)
    requires Inv(chain, s) && k in s.db && c.home == s.db[k].home
    requires CellOk(chain, s.(db := s.db[k := c]), k)
    requires c.entry.pendingFill.Some? ==> c.entry.pendingFill == s.db[k].entry.pendingFill
    requires c.entry.pendingFill.None? && s.db[k].entry.pendingFill.Some? ==>
               s.fills[c.home].owner < |s.tasks| &&
               var pc := s.tasks[s.fills[c.home].owner].pc;
               (c.entry.slot != 0 && pc.Merging?) || pc.Cleaning?
    requires c.entry.slot == 0 ==> s.db[k].entry.slot == 0
    ensures Inv(chain, s.(db := s.db[k := c]))
  {
    var s' := s.(db := s.db[k := c]);
    assert CellOk(chain, s, k);
    assert FillOk(s, c.home);
    forall u | 0 <= u < |s'.tasks| ensures TaskOk(chain, s', u) {
      assert TaskOk(chain, s, u);
      TaskFrame(chain, s, s', u);
    }
    forall f | 0 <= f < |s'.fills| ensures FillOk(s', f) { assert FillOk(s, f); FillFrame(s, s', f); }
    forall j <- s'.db ensures CellOk(chain, s', j) { assert CellOk(chain, s, j); }
  }

  /** A miss inserts a placeholder with a fresh fill. */
  lemma FreshKeeps(chain: Chain, s: State, t: TaskId)
    requires Inv(chain, s) && t < |s.tasks| && s.tasks[t].pc.Missed? && s.tasks[t].key !in s.db
    ensures Inv(chain, DoInsert(s, t, None))
  {
    var s', latest := DoInsert(s, t, None), |s.fills|;
    assert TaskOk(chain, s, t);
    assert Grows(s, s');
    forall u | 0 <= u < |s'.tasks| ensures TaskOk(chain, s', u) {
      if u != t { assert TaskOk(chain, s, u); TaskFrame(chain, s, s', u); }
    }
    forall f | 0 <= f < |s'.fills| ensures FillOk(s', f) {
      if f != latest { assert FillOk(s, f); FillFrame(s, s', f); }
    }
    forall k <- s'.db ensures CellOk(chain, s', k) {
      if k in s.db { assert CellOk(chain, s, k); }
    }
  }

  lemma ReadKeeps(chain: Chain, s: State, t: TaskId)
    requires Inv(chain, s) && t < |s.tasks| && s.tasks[t].pc.Reading?
    ensures Inv(chain, DoRead(s, t))
  {
    assert TaskOk(chain, s, t);
    if s.tasks[t].key in s.db { assert CellOk(chain, s, s.tasks[t].key); }
    MoveKeeps(chain, s, t, DoRead(s, t).tasks[t]);
  }

  lemma SeeKeeps(chain: Chain, s: State, t: TaskId)
    requires Inv(chain, s) && t < |s.tasks| && s.tasks[t].pc.Awaiting? && s.tasks[t].pc.f < |s.fills|
    ensures var fill := s.fills[s.tasks[t].pc.f];
            && (fill.state.Resolved? ==> Inv(chain, DoSee(s, t)))
            && (fill.state.Dropped? ==> Inv(chain, Goto(s, t, Retiring(s.tasks[t].pc.f))))
  {
    assert TaskOk(chain, s, t);
    var f := s.tasks[t].pc.f;
    assert FillOk(s, f) && TaskOk(chain, s, s.fills[f].owner);
    if s.fills[f].state.Resolved? { MoveKeeps(chain, s, t, DoSee(s, t).tasks[t]); }
    if s.fills[f].state.Dropped? { MoveKeeps(chain, s, t, s.tasks[t].(pc := Retiring(f))); }
  }

  lemma RetireKeeps(chain: Chain, s: State, t: TaskId)
    requires Inv(chain, s) && t < |s.tasks| && s.tasks[t].pc.Retiring?
    ensures Inv(chain, DoRetire(s, t))
  {
    assert TaskOk(chain, s, t);
    var next := Goto(s, t, Reading);
    MoveKeeps(chain, s, t, next.tasks[t]);
    RemoveKeeps(chain, next, {s.tasks[t].key});
  }

  lemma InsertKeeps(chain: Chain, s: State, t: TaskId, evicted: Option<Pubkey>)
    requires Inv(chain, s) && t < |s.tasks| && s.tasks[t].pc.Missed?
    requires evicted.Some? ==> s.tasks[t].key !in s.db
    ensures Inv(chain, DoInsert(s, t, evicted))
  {
    assert TaskOk(chain, s, t);
    if s.tasks[t].key in s.db {
      MoveKeeps(chain, s, t, s.tasks[t].(pc := Reading));
    } else if evicted.None? {
      FreshKeeps(chain, s, t);
    } else {
      var room := s.(db := s.db - {evicted.value});
      RemoveKeeps(chain, s, {evicted.value});
      FreshKeeps(chain, room, t);
      assert DoInsert(s, t, evicted) == DoInsert(room, t, None);
    }
  }

  lemma SubscribeKeeps(chain: Chain, s: State, t: TaskId, from: Option<nat>)
    requires Inv(chain, s) && t < |s.tasks| && s.tasks[t].pc.Subscribing?
    ensures Inv(chain, DoSubscribe(s, t, from))
  {
    assert TaskOk(chain, s, t);
    MoveKeeps(chain, s, t, DoSubscribe(s, t, from).tasks[t]);
  }

  lemma WithdrawKeeps(chain: Chain, s: State, t: TaskId)
    requires Inv(chain, s) && t < |s.tasks| && s.tasks[t].pc.Withdrawing? && s.tasks[t].pc.f < |s.fills|
    ensures Inv(chain, DoWithdraw(s, t))
  {
    assert TaskOk(chain, s, t);
    var k, f := s.tasks[t].key, s.tasks[t].pc.f;
    if HoldsAt(s, k, f) {
      RemoveKeeps(chain, s, {k});
      MoveKeeps(chain, s.(db := s.db - {k}), t, s.tasks[t].(pc := Fetching(Some(f), None, 0, None)));
    } else {
      DropKeeps(chain, s, t, Reading);
    }
  }

  lemma CheckKeeps(chain: Chain, s: State, t: TaskId)
    requires Inv(chain, s) && t < |s.tasks| && s.tasks[t].pc.Checking? && s.tasks[t].pc.f < |s.fills|
    ensures Inv(chain, DoCheck(s, t))
  {
    assert TaskOk(chain, s, t);
    var k, f := s.tasks[t].key, s.tasks[t].pc.f;
    if HoldsAt(s, k, f) {
      assert CellOk(chain, s, k);
      var c := DoCheck(s, t).db[k];
      RewriteKeeps(chain, s, k, c);
      MoveKeeps(chain, s.(db := s.db[k := c]), t, DoCheck(s, t).tasks[t]);
    } else {
      DropKeeps(chain, s, t, Reading);
    }
  }

  lemma FetchedKeeps(chain: Chain, s: State, t: TaskId, slot: nat)
    requires Inv(chain, s) && t < |s.tasks| && (s.tasks[t].pc.Racing? || s.tasks[t].pc.Fetching?)
    requires slot > 0 && AtLeast(slot, MinOf(s.tasks[t].pc))
    ensures Inv(chain, DoFetched(s, t, Fetched(slot, chain(s.tasks[t].key, slot))))
  {
    assert TaskOk(chain, s, t);
    MoveKeeps(chain, s, t, DoFetched(s, t, Fetched(slot, chain(s.tasks[t].key, slot))).tasks[t]);
  }

  lemma FailedKeeps(chain: Chain, s: State, t: TaskId)
    requires Inv(chain, s) && t < |s.tasks| && (s.tasks[t].pc.Racing? || s.tasks[t].pc.Fetching?)
    ensures Inv(chain, DoFailed(s, t))
  {
    assert TaskOk(chain, s, t);
    var moved := DoFailed(s, t).tasks[t];
    assert DoFailed(s, t) == s.(tasks := s.tasks[t := moved]);
    MoveKeeps(chain, s, t, moved);
  }

  lemma ArmKeeps(chain: Chain, s: State, t: TaskId)
    requires Inv(chain, s) && t < |s.tasks| && s.tasks[t].pc.Racing? && s.tasks[t].pc.f < |s.fills|
    requires s.tasks[t].pc.watch.Arming?
    ensures Inv(chain, DoArm(s, t))
  {
    assert TaskOk(chain, s, t);
    MoveKeeps(chain, s, t, DoArm(s, t).tasks[t]);
  }

  /** The owner goes to sleep only if it saw no installed record. */
  lemma LookKeeps(chain: Chain, s: State, t: TaskId)
    requires Inv(chain, s) && t < |s.tasks| && s.tasks[t].pc.Racing? && s.tasks[t].pc.watch.Looking?
    ensures Inv(chain, DoLook(s, t))
  {
    assert TaskOk(chain, s, t);
    if s.tasks[t].key in s.db { assert CellOk(chain, s, s.tasks[t].key); }
    MoveKeeps(chain, s, t, DoLook(s, t).tasks[t]);
  }

  lemma WakeKeeps(chain: Chain, s: State, t: TaskId)
    requires Inv(chain, s) && t < |s.tasks| && s.tasks[t].pc.Racing? && s.tasks[t].pc.watch.Asleep?
    requires s.tasks[t].pc.f < |s.fills| && s.fills[s.tasks[t].pc.f].notified > s.tasks[t].pc.watch.mark
    ensures Inv(chain, DoWake(s, t))
  {
    assert TaskOk(chain, s, t);
    MoveKeeps(chain, s, t, DoWake(s, t).tasks[t]);
  }

  lemma MergeKeeps(chain: Chain, s: State, t: TaskId)
    requires Inv(chain, s) && t < |s.tasks| && s.tasks[t].pc.Merging?
    ensures Inv(chain, DoMerge(s, t))
  {
    assert TaskOk(chain, s, t);
    var k, own, fetched := s.tasks[t].key, s.tasks[t].pc.own, s.tasks[t].pc.fetched;
    var mid := s;
    if k in s.db {
      assert CellOk(chain, s, k);
      var c := MergeCell(s.db[k], fetched, own, s.tasks[t].pc.lease);
      RewriteKeeps(chain, s, k, c);
      mid := s.(db := s.db[k := c]);
    }
    MoveKeeps(chain, mid, t, DoMerge(s, t).tasks[t]);
  }

  lemma CleanKeeps(chain: Chain, s: State, t: TaskId)
    requires Inv(chain, s) && t < |s.tasks| && s.tasks[t].pc.Cleaning?
    ensures Inv(chain, DoClean(s, t))
  {
    assert TaskOk(chain, s, t);
    var k, f := s.tasks[t].key, s.tasks[t].pc.f;
    var mid := s;
    if k in s.db {
      assert CellOk(chain, s, k);
      var c := s.db[k].(entry := Cleaned(s.db[k].entry, f));
      RewriteKeeps(chain, s, k, c);
      mid := s.(db := s.db[k := c]);
    }
    MoveKeeps(chain, mid, t, DoClean(s, t).tasks[t]);
  }

  lemma CancelKeeps(chain: Chain, s: State, t: TaskId)
    requires Inv(chain, s) && t < |s.tasks| && !s.tasks[t].pc.Done?
    requires Owned(s.tasks[t].pc).Some? ==> Owned(s.tasks[t].pc).value < |s.fills|
    ensures Inv(chain, Goto(DropOwned(s, t), t, Gone))
  {
    assert TaskOk(chain, s, t);
    if Owned(s.tasks[t].pc).Some? { DropKeeps(chain, s, t, Gone); }
    else { MoveKeeps(chain, s, t, s.tasks[t].(pc := Gone)); }
  }

  /** Every action keeps the invariant. */
  lemma StepKeeps(chain: Chain, s: State, a: Action)
    requires Inv(chain, s) && Enabled(s, a)
    ensures Inv(chain, Apply(chain, s, a))
  {
    match a
    case Spawn(k) => SpawnKeeps(chain, s, k);
    case ReadEntry(t) => ReadKeeps(chain, s, t);
    case SeeResolved(t) => SeeKeeps(chain, s, t);
    case SeeDropped(t) => SeeKeeps(chain, s, t);
    case RetireDead(t) => RetireKeeps(chain, s, t);
    case Insert(t, evicted) => InsertKeeps(chain, s, t, evicted);
    case Subscribe(t, from) => SubscribeKeeps(chain, s, t, from);
    case Withdraw(t) => WithdrawKeeps(chain, s, t);
    case Check(t) => CheckKeeps(chain, s, t);
    case RpcOk(t, slot) => FetchedKeeps(chain, s, t, slot);
    case RpcFail(t) => FailedKeeps(chain, s, t);
    case Arm(t) => ArmKeeps(chain, s, t);
    case Look(t) => LookKeeps(chain, s, t);
    case Wake(t) => WakeKeeps(chain, s, t);
    case Merge(t) => MergeKeeps(chain, s, t);
    case Clean(t) => CleanKeeps(chain, s, t);
    case Send(t) => ResolveKeeps(chain, s, t);
    case Cancel(t) => CancelKeeps(chain, s, t);
    case Update(k, slot) => UpdateKeeps(chain, s, k, slot);
    case Notify => NotifyKeeps(chain, s);
    case Clear(keys) => RemoveKeeps(chain, s, keys);
  }

  /** The invariant holds after every run, whatever the interleaving. */
  lemma {:induction false} RunKeeps(chain: Chain, run: seq<Action>)
    requires IsRun(chain, run)
    ensures Inv(chain, After(chain, run))
  {
    if run != [] {
      var before := run[..|run| - 1];
      RunKeeps(chain, before);
      StepKeeps(chain, After(chain, before), run[|run| - 1]);
    }
  }
}
