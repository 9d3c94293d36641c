/** Why the loop of `get_record` ends: every `continue` is paid for by an interfering event.
    The ledger is history kept beside a run; it influences no step. */
module RetryLedger {
  import opened RouterTypes
  import opened CacheEntry
  import opened FillProtocol
  import opened FillInvariant
  import opened FillTheorems

  /** One task's account: how often it started over, the fills it gave up waiting for, the
      event count of its key when it began, the events it caused itself, and 1 if it
      began with an abandoned placeholder under its key. */
  datatype Account = Account(
    retries: nat,
    abandoned: set<FillId>,
    opening: nat,
    own: nat,
    credit: nat)

  /** Interfering events per key so far, and one account per task. */
  datatype Ledger = Ledger(events: map<Pubkey, nat>, accounts: seq<Account>)

  const BLANK: Ledger := Ledger(map[], [])

  function EventsAt(l: Ledger, k: Pubkey): nat {
    if k in l.events then l.events[k] else 0
  }

  function HeldFill(s: State, k: Pubkey): Option<FillId> {
    if k in s.db then s.db[k].entry.pendingFill else None
  }

  function FillStateOf(s: State, f: FillId): FillState {
    if f < |s.fills| then s.fills[f].state else Unresolved
  }

  /** The entry under `k` is the placeholder of a dropped fill other than `except`. */
  function DeadAt(s: State, k: Pubkey, except: Option<FillId>): nat {
    var held := HeldFill(s, k);
    if held.Some? && held != except && FillStateOf(s, held.value).Dropped? then 1 else 0
  }

  /** A placeholder under `k` leaves the map in a way its owner did not choose. */
  function Lost(s: State, k: Pubkey): nat {
    if HeldFill(s, k).Some? then 1 else 0
  }

  /** The interfering events an action causes under `k`: a placeholder inserted, evicted,
      cleared or filled by the stream, or a fill dropped by its owner. */
  function Interferes(s: State, a: Action, k: Pubkey): nat {
    match a
    case Insert(t, evicted) =>
      if t < |s.tasks| && s.tasks[t].key == k && k !in s.db then 1
      else if evicted == Some(k) then Lost(s, k) else 0
    case Clear(keys) => if k in keys then Lost(s, k) else 0
    case Update(key, slot) =>
      if key == k && k in s.db && Taken(s.db[k].entry, slot).Some? then 1 else 0
    case Cancel(t) => if t < |s.tasks| && s.tasks[t].key == k && Owned(s.tasks[t].pc).Some? then 1 else 0
    case Withdraw(t) => if StartsOver(s, a) && s.tasks[t].key == k then 1 else 0
    case Check(t) => if StartsOver(s, a) && s.tasks[t].key == k then 1 else 0
    case _ => 0
  }

  /** The action ends in a `continue` of the loop. */
  predicate StartsOver(s: State, a: Action) {
    match a
    case RetireDead(t) => true
    case Insert(t, _) => t < |s.tasks| && s.tasks[t].key in s.db
    case Withdraw(t) => t < |s.tasks| && s.tasks[t].pc.Withdrawing? && !HoldsAt(s, s.tasks[t].key, s.tasks[t].pc.f)
    case Check(t) => t < |s.tasks| && s.tasks[t].pc.Checking? && !HoldsAt(s, s.tasks[t].key, s.tasks[t].pc.f)
    case _ => false
  }

  function Touched(s: State, a: Action): set<Pubkey> {
    (if Actor(a).Some? && a.t < |s.tasks| then {s.tasks[a.t].key} else {}) +
    (if a.Insert? && a.evicted.Some? then {a.evicted.value} else {}) +
    (if a.Clear? then a.keys else {}) +
    (if a.Update? then {a.key} else {})
  }

  /** Bookkeeping of one action. */
  function Book(l: Ledger, s: State, a: Action): Ledger
    requires |l.accounts| == |s.tasks|
  {
    Ledger(
      map k | k in l.events.Keys + Touched(s, a) :: EventsAt(l, k) + Interferes(s, a, k),
      BookAccounts(l, s, a))
  }

  function BookAccounts(l: Ledger, s: State, a: Action): seq<Account>
    requires |l.accounts| == |s.tasks|
  {
    if a.Spawn? then
      l.accounts + [Account(0, {}, EventsAt(l, a.key), 0, DeadAt(s, a.key, None))]
    else if Actor(a).Some? && a.t < |s.tasks| then
      var acc := l.accounts[a.t];
      l.accounts[a.t := acc.(
        retries := acc.retries + (if StartsOver(s, a) then 1 else 0),
        abandoned := if a.RetireDead? && s.tasks[a.t].pc.Retiring? then acc.abandoned + {s.tasks[a.t].pc.f}
                     else acc.abandoned,
        own := acc.own + Interferes(s, a, s.tasks[a.t].key))]
    else l.accounts
  }

  lemma TaskCount(chain: Chain, s: State, a: Action)
    requires Enabled(s, a)
    ensures |Apply(chain, s, a).tasks| == |s.tasks| + if a.Spawn? then 1 else 0
  {
  }

  function LedgerAfter(chain: Chain, run: seq<Action>): (l: Ledger)
    requires IsRun(chain, run)
    ensures |l.accounts| == |After(chain, run).tasks|
  {
    if run == [] then BLANK
    else
      var before, a := run[..|run| - 1], run[|run| - 1];
      TaskCount(chain, After(chain, before), a);
      Book(LedgerAfter(chain, before), After(chain, before), a)
  }

  /** Retries that the current state already forces on a caller but has not yet charged. */
  function Due(s: State, task: Task): nat {
    var k := task.key;
    match task.pc
    case Reading => DeadAt(s, k, None)
    case Awaiting(f) => (if FillStateOf(s, f).Dropped? then 1 else 0) + DeadAt(s, k, Some(f))
    case Retiring(f) => 1 + DeadAt(s, k, Some(f))
    case Missed => if k in s.db then 1 + DeadAt(s, k, None) else 0
    case Subscribing(f) => DueOwner(s, k, f)
    case Withdrawing(f) => DueOwner(s, k, f)
    case Checking(f, _) => DueOwner(s, k, f)
    case _ => 0
  }

  function DueOwner(s: State, k: Pubkey, f: FillId): nat {
    if HeldFill(s, k) == Some(f) then 0 else 1 + DeadAt(s, k, None)
  }

  /** The account balances: retries made or already forced are covered by events of others. */
  predicate Balanced(l: Ledger, s: State, t: TaskId)
    requires |l.accounts| == |s.tasks| && t < |s.tasks|
  {
    var acc := l.accounts[t];
    acc.opening + acc.own <= EventsAt(l, s.tasks[t].key) &&
    acc.retries + Due(s, s.tasks[t]) <= EventsAt(l, s.tasks[t].key) - acc.opening - acc.own + acc.credit
  }

  /** A fill the caller gave up on is dropped and sits in no entry. */
  predicate GaveUp(l: Ledger, s: State, t: TaskId)
    requires |l.accounts| == |s.tasks| && t < |s.tasks|
  {
    forall f <- l.accounts[t].abandoned ::
      f < |s.fills| && s.fills[f].state.Dropped? && !Held(s, f) && s.tasks[t].pc != Awaiting(f)
  }

  // How another task's map step changes what is due from task u.

  lemma RetireDue(chain: Chain, s: State, t: TaskId, u: TaskId)
    requires Inv(chain, s) && u < |s.tasks| && t < |s.tasks| && s.tasks[t].pc.Retiring?
    ensures Due(DoRetire(s, t), s.tasks[u]) <= Due(s, s.tasks[u])
  {
    assert TaskOk(chain, s, u) && TaskOk(chain, s, t);
  }

  lemma WithdrawDue(chain: Chain, s: State, t: TaskId, u: TaskId)
    requires Inv(chain, s) && u < |s.tasks| && t != u && Enabled(s, Withdraw(t))
    ensures Due(DoWithdraw(s, t), s.tasks[u]) <= Due(s, s.tasks[u]) + Interferes(s, Withdraw(t), s.tasks[u].key)
  {
    assert TaskOk(chain, s, u) && TaskOk(chain, s, t);
    if s.tasks[u].key in s.db { assert CellOk(chain, s, s.tasks[u].key); }
  }

  lemma CheckDue(chain: Chain, s: State, t: TaskId, u: TaskId)
    requires Inv(chain, s) && u < |s.tasks| && t != u && Enabled(s, Check(t))
    ensures Due(DoCheck(s, t), s.tasks[u]) <= Due(s, s.tasks[u]) + Interferes(s, Check(t), s.tasks[u].key)
  {
    assert TaskOk(chain, s, u) && TaskOk(chain, s, t);
    if s.tasks[u].key in s.db { assert CellOk(chain, s, s.tasks[u].key); }
  }

  lemma InsertDue(chain: Chain, s: State, t: TaskId, evicted: Option<Pubkey>, u: TaskId)
    requires Inv(chain, s) && u < |s.tasks| && t != u && Enabled(s, Insert(t, evicted))
    ensures Due(DoInsert(s, t, evicted), s.tasks[u]) <=
            Due(s, s.tasks[u]) + Interferes(s, Insert(t, evicted), s.tasks[u].key)
  {
    assert TaskOk(chain, s, u);
    if s.tasks[u].key in s.db { assert CellOk(chain, s, s.tasks[u].key); }
  }

  lemma ClearDue(chain: Chain, s: State, keys: set<Pubkey>, u: TaskId)
    requires Inv(chain, s) && u < |s.tasks|
    ensures Due(s.(db := s.db - keys), s.tasks[u]) <= Due(s, s.tasks[u]) + Interferes(s, Clear(keys), s.tasks[u].key)
  {
  }

  lemma UpdateDue(chain: Chain, s: State, k: Pubkey, slot: nat, u: TaskId)
    requires Inv(chain, s) && u < |s.tasks|
    ensures Due(DoUpdate(s, k, slot, chain(k, slot)), s.tasks[u]) <=
            Due(s, s.tasks[u]) + Interferes(s, Update(k, slot), s.tasks[u].key)
  {
  }

  /** The holder of an entry gives way only to nobody, and only if its fill is still unresolved. */
  lemma VacatedDue(s: State, s': State, task: Task, own: FillId)
    requires s'.fills == s.fills && (task.key in s.db <==> task.key in s'.db)
    requires FillStateOf(s, own).Unresolved? && Owned(task.pc) != Some(own)
    requires HeldFill(s', task.key) == HeldFill(s, task.key) ||
             (HeldFill(s', task.key).None? && HeldFill(s, task.key) == Some(own))
    ensures Due(s', task) <= Due(s, task)
  {
  }

  lemma MergeDue(chain: Chain, s: State, t: TaskId, u: TaskId)
    requires Inv(chain, s) && u < |s.tasks| && t != u && Enabled(s, Merge(t))
    ensures Due(DoMerge(s, t), s.tasks[u]) <= Due(s, s.tasks[u])
  {
    assert TaskOk(chain, s, u) && TaskOk(chain, s, t);
    var k, own := s.tasks[u].key, s.tasks[t].pc.own;
    if k in s.db { assert CellOk(chain, s, k); }
    if own.Some? { VacatedDue(s, DoMerge(s, t), s.tasks[u], own.value); }
  }

  lemma CleanDue(chain: Chain, s: State, t: TaskId, u: TaskId)
    requires Inv(chain, s) && u < |s.tasks| && t != u && Enabled(s, Clean(t))
    ensures Due(DoClean(s, t), s.tasks[u]) <= Due(s, s.tasks[u])
  {
    assert TaskOk(chain, s, u) && TaskOk(chain, s, t);
    VacatedDue(s, DoClean(s, t), s.tasks[u], s.tasks[t].pc.f);
  }

  lemma CancelDue(chain: Chain, s: State, t: TaskId, u: TaskId)
    requires Inv(chain, s) && u < |s.tasks| && t != u && Enabled(s, Cancel(t))
    ensures Due(Goto(DropOwned(s, t), t, Gone), s.tasks[u]) <=
            Due(s, s.tasks[u]) + Interferes(s, Cancel(t), s.tasks[u].key)
  {
    assert TaskOk(chain, s, u) && TaskOk(chain, s, t);
    if s.tasks[u].key in s.db { assert CellOk(chain, s, s.tasks[u].key); }
  }

  lemma SendDue(chain: Chain, s: State, t: TaskId, u: TaskId)
    requires Inv(chain, s) && u < |s.tasks| && t != u && Enabled(s, Send(t))
    ensures Due(DoSend(s, t), s.tasks[u]) <= Due(s, s.tasks[u])
  {
    assert TaskOk(chain, s, t);
  }

  /** Neither the map nor any fill's state changes. */
  lemma SilentStep(chain: Chain, s: State, a: Action)
    requires Enabled(s, a) && Quiet(a) && !a.Send? && !a.Cancel?
    ensures var s' := Apply(chain, s, a); s'.db == s.db && forall f :: FillStateOf(s', f) == FillStateOf(s, f)
  {
  }

  lemma MapStepDue(chain: Chain, s: State, a: Action, u: TaskId)
    requires Inv(chain, s) && Enabled(s, a) && u < |s.tasks| && Actor(a) != Some(u) && !Quiet(a)
    ensures Due(Apply(chain, s, a), s.tasks[u]) <= Due(s, s.tasks[u]) + Interferes(s, a, s.tasks[u].key)
  {
    if a.RetireDead? { RetireDue(chain, s, a.t, u); }
    else if a.Withdraw? { WithdrawDue(chain, s, a.t, u); }
    else if a.Check? { CheckDue(chain, s, a.t, u); }
    else if a.Insert? { InsertDue(chain, s, a.t, a.evicted, u); }
    else if a.Clear? { ClearDue(chain, s, a.keys, u); }
    else if a.Update? { UpdateDue(chain, s, a.key, a.slot, u); }
    else if a.Merge? { MergeDue(chain, s, a.t, u); }
    else { CleanDue(chain, s, a.t, u); }
  }

  lemma SilentDue(s: State, s': State, task: Task)
    requires s'.db == s.db && forall f :: FillStateOf(s', f) == FillStateOf(s, f)
    ensures Due(s', task) == Due(s, task)
  {
  }

  /** Another task's step forces a retry on `u` only together with an interfering event. */
  lemma OthersDue(chain: Chain, s: State, a: Action, u: TaskId)
    requires Inv(chain, s) && Enabled(s, a) && u < |s.tasks| && Actor(a) != Some(u)
    ensures Due(Apply(chain, s, a), s.tasks[u]) <= Due(s, s.tasks[u]) + Interferes(s, a, s.tasks[u].key)
  {
    if !Quiet(a) {
      MapStepDue(chain, s, a, u);
    } else if a.Send? {
      SendDue(chain, s, a.t, u);
    } else if a.Cancel? {
      CancelDue(chain, s, a.t, u);
    } else {
      SilentStep(chain, s, a);
      SilentDue(s, Apply(chain, s, a), s.tasks[u]);
    }
  }

  lemma RetryingStepsDue(chain: Chain, s: State, a: Action)
    requires Inv(chain, s) && Enabled(s, a)
    requires a.RetireDead? || a.Insert? || a.Withdraw? || a.Check?
    ensures var s' := Apply(chain, s, a);
            Due(s', s'.tasks[a.t]) + (if StartsOver(s, a) then 1 else 0) <= Due(s, s.tasks[a.t])
  {
    assert TaskOk(chain, s, a.t);
    if s.tasks[a.t].key in s.db { assert CellOk(chain, s, s.tasks[a.t].key); }
  }

  lemma WaitingStepsDue(chain: Chain, s: State, a: Action)
    requires Inv(chain, s) && Enabled(s, a)
    requires a.ReadEntry? || a.SeeResolved? || a.SeeDropped? || a.Subscribe?
    ensures var s' := Apply(chain, s, a); Due(s', s'.tasks[a.t]) <= Due(s, s.tasks[a.t])
  {
    assert TaskOk(chain, s, a.t);
    if s.tasks[a.t].key in s.db { assert CellOk(chain, s, s.tasks[a.t].key); }
  }

  /** Past its check an owner does not start over, and neither does a caller that fetches. */
  lemma CommittedStepsDue(chain: Chain, s: State, a: Action)
    requires Enabled(s, a)
    requires a.RpcOk? || a.RpcFail? || a.Arm? || a.Look? || a.Wake? || a.Merge? || a.Clean? || a.Send? || a.Cancel?
    ensures var s' := Apply(chain, s, a); Due(s', s'.tasks[a.t]) == 0
  {
  }

  lemma KeyStays(chain: Chain, s: State, a: Action)
    requires Enabled(s, a) && Actor(a).Some?
    ensures var s' := Apply(chain, s, a);
            a.t < |s'.tasks| && a.t < |s.tasks| && s'.tasks[a.t].key == s.tasks[a.t].key
  {
  }

  /** A task pays for its own `continue` with a retry that was already due. */
  lemma ActorDue(chain: Chain, s: State, a: Action)
    requires Inv(chain, s) && Enabled(s, a) && Actor(a).Some?
    ensures var s' := Apply(chain, s, a);
            a.t < |s'.tasks| && a.t < |s.tasks| && s'.tasks[a.t].key == s.tasks[a.t].key &&
            Due(s', s'.tasks[a.t]) + (if StartsOver(s, a) then 1 else 0) <= Due(s, s.tasks[a.t])
  {
    KeyStays(chain, s, a);
    if a.RetireDead? || a.Insert? || a.Withdraw? || a.Check? {
      RetryingStepsDue(chain, s, a);
    } else if a.ReadEntry? || a.SeeResolved? || a.SeeDropped? || a.Subscribe? {
      WaitingStepsDue(chain, s, a);
    } else {
      CommittedStepsDue(chain, s, a);
    }
  }

  lemma {:induction false} BalanceKept(chain: Chain, l: Ledger, s: State, a: Action, t: TaskId)
    requires Inv(chain, s) && Enabled(s, a) && |l.accounts| == |s.tasks|
    requires t < |s.tasks| ==> Balanced(l, s, t)
    requires t < |Apply(chain, s, a).tasks|
    ensures |Book(l, s, a).accounts| == |Apply(chain, s, a).tasks|
    ensures Balanced(Book(l, s, a), Apply(chain, s, a), t)
  {
    var s', l' := Apply(chain, s, a), Book(l, s, a);
    TaskCount(chain, s, a);
    if t < |s.tasks| {
      EventsBooked(l, s, a, s.tasks[t].key);
      if Actor(a) == Some(t) {
        ActorDue(chain, s, a);
      } else {
        OthersDue(chain, s, a, t);
        OthersStay(chain, s, a, t);
        assert l'.accounts[t] == l.accounts[t];
      }
    }
  }

  lemma EventsBooked(l: Ledger, s: State, a: Action, k: Pubkey)
    requires |l.accounts| == |s.tasks|
    ensures EventsAt(Book(l, s, a), k) == EventsAt(l, k) + Interferes(s, a, k)
  {
  }

  /** No step puts an old fill back into an entry. */
  lemma NeverHeldAgain(chain: Chain, s: State, a: Action, f: FillId)
    requires Inv(chain, s) && Enabled(s, a) && f < |s.fills| && !Held(s, f)
    ensures f < |Apply(chain, s, a).fills| && !Held(Apply(chain, s, a), f)
  {
    FillsOnlyGrow(chain, s, a);
    assert FillOk(s, f);
    if Quiet(a) {
      QuietKeepsMap(chain, s, a);
    } else if Actor(a).Some? {
      assert TaskOk(chain, s, a.t);
    }
  }

  /** A task begins to wait only for a fill that sits in an entry. */
  lemma WaitsForHeld(chain: Chain, s: State, a: Action, t: TaskId, f: FillId)
    requires Inv(chain, s) && Enabled(s, a) && t < |s.tasks| && t < |Apply(chain, s, a).tasks|
    requires Apply(chain, s, a).tasks[t].pc == Awaiting(f)
    ensures s.tasks[t].pc == Awaiting(f) || (f < |s.fills| && Held(s, f))
  {
    if s.tasks[t].key in s.db { assert CellOk(chain, s, s.tasks[t].key); }
    if Actor(a) != Some(t) { OthersStay(chain, s, a, t); }
  }

  lemma {:induction false} GaveUpKept(chain: Chain, l: Ledger, s: State, a: Action, t: TaskId)
    requires Inv(chain, s) && Enabled(s, a) && |l.accounts| == |s.tasks|
    requires t < |s.tasks| ==> GaveUp(l, s, t)
    requires t < |Apply(chain, s, a).tasks|
    ensures |Book(l, s, a).accounts| == |Apply(chain, s, a).tasks|
    ensures GaveUp(Book(l, s, a), Apply(chain, s, a), t)
  {
    var s', l' := Apply(chain, s, a), Book(l, s, a);
    TaskCount(chain, s, a);
    FillsOnlyGrow(chain, s, a);
    forall f <- l'.accounts[t].abandoned
      ensures f < |s'.fills| && s'.fills[f].state.Dropped? && !Held(s', f) && s'.tasks[t].pc != Awaiting(f)
    {
      if t < |s.tasks| { assert TaskOk(chain, s, t); }
      if f in l.accounts[t].abandoned {
        NeverHeldAgain(chain, s, a, f);
        if s'.tasks[t].pc == Awaiting(f) { WaitsForHeld(chain, s, a, t, f); }
      } else {
        assert a == RetireDead(t) && s.tasks[t].pc == Retiring(f);
        if s.tasks[t].key in s.db { assert CellOk(chain, s, s.tasks[t].key); }
      }
    }
  }

  lemma {:induction false} LedgerBalances(chain: Chain, run: seq<Action>, t: TaskId)
    requires IsRun(chain, run) && t < |After(chain, run).tasks|
    ensures Balanced(LedgerAfter(chain, run), After(chain, run), t)
    ensures GaveUp(LedgerAfter(chain, run), After(chain, run), t)
  {
    if run != [] {
      var before, a := run[..|run| - 1], run[|run| - 1];
      RunKeeps(chain, before);
      if t < |After(chain, before).tasks| { LedgerBalances(chain, before, t); }
      BalanceKept(chain, LedgerAfter(chain, before), After(chain, before), a, t);
      GaveUpKept(chain, LedgerAfter(chain, before), After(chain, before), a, t);
    }
  }

  /** Events that others caused under the caller's key since it began. */
  function Interference(chain: Chain, run: seq<Action>, t: TaskId): int
    requires IsRun(chain, run) && t < |After(chain, run).tasks|
  {
    var l := LedgerAfter(chain, run);
    EventsAt(l, After(chain, run).tasks[t].key) - l.accounts[t].opening - l.accounts[t].own
  }

  /** Bounded retries: a call never starts over more often than others interfered with its
      key, except once for a placeholder that was already abandoned when it began. */
  lemma {:induction false} RetriesCharged(chain: Chain, run: seq<Action>, t: TaskId)
    requires IsRun(chain, run) && t < |After(chain, run).tasks|
    ensures var acc := LedgerAfter(chain, run).accounts[t];
            0 <= Interference(chain, run, t) && acc.retries <= Interference(chain, run, t) + acc.credit
  {
    LedgerBalances(chain, run, t);
  }

  /** One call never waits twice for the same fill. */
  lemma {:induction false} NeverAwaitsTwice(chain: Chain, run: seq<Action>, t: TaskId)
    requires IsRun(chain, run) && t < |After(chain, run).tasks| && After(chain, run).tasks[t].pc.Awaiting?
    ensures After(chain, run).tasks[t].pc.f !in LedgerAfter(chain, run).accounts[t].abandoned
  {
    LedgerBalances(chain, run, t);
  }

  // ---- The credit is spent, exactly where it is given ----

  function CallCount(chain: Chain, run: seq<Action>): nat
    requires IsRun(chain, run)
  {
    |After(chain, run).tasks|
  }

  lemma {:induction false} BookedStep(chain: Chain, run: seq<Action>, a: Action) returns (longer: seq<Action>)
    requires IsRun(chain, run) && Enabled(After(chain, run), a)
    ensures longer == run + [a] && IsRun(chain, longer)
    ensures After(chain, longer) == Apply(chain, After(chain, run), a)
    ensures LedgerAfter(chain, longer) == Book(LedgerAfter(chain, run), After(chain, run), a)
  {
    longer := Append(chain, run, a);
    assert longer[..|longer| - 1] == run;
  }

  /** What a call is credited with when it begins stays as it is. */
  lemma {:induction false} CreditStays(chain: Chain, run: seq<Action>, more: seq<Action>, t: TaskId)
    requires IsRun(chain, run) && IsRun(chain, run + more) && t < CallCount(chain, run)
    ensures t < CallCount(chain, run + more)
    ensures LedgerAfter(chain, run + more).accounts[t].credit == LedgerAfter(chain, run).accounts[t].credit
  {
    if more == [] {
      assert run + more == run;
    } else {
      var most := more[..|more| - 1];
      assert (run + more)[..|run + more| - 1] == run + most;
      CreditStays(chain, run, most, t);
      TaskCount(chain, After(chain, run + most), more[|more| - 1]);
    }
  }

  /** Call `t` has started over `n` times and suffered `x` interfering events. */
  predicate Charged(chain: Chain, run: seq<Action>, t: TaskId, n: nat, x: int) {
    && IsRun(chain, run) && t < CallCount(chain, run)
    && LedgerAfter(chain, run).accounts[t].retries == n && Interference(chain, run, t) == x
  }

  lemma {:induction false} FindsAbandoned(chain: Chain, run: seq<Action>, t: TaskId, n: nat, x: int)
    returns (longer: seq<Action>)
    requires Charged(chain, run, t, n, x) && After(chain, run).tasks[t].pc == Reading
    requires DeadAt(After(chain, run), After(chain, run).tasks[t].key, None) == 1
    ensures longer == run + [ReadEntry(t)] && Charged(chain, longer, t, n, x)
    ensures Enabled(After(chain, longer), SeeDropped(t))
  {
    RunKeeps(chain, run);
    assert CellOk(chain, After(chain, run), After(chain, run).tasks[t].key);
    longer := BookedStep(chain, run, ReadEntry(t));
  }

  lemma {:induction false} SeesAbandoned(chain: Chain, run: seq<Action>, t: TaskId, n: nat, x: int)
    returns (longer: seq<Action>)
    requires Charged(chain, run, t, n, x) && Enabled(After(chain, run), SeeDropped(t))
    ensures longer == run + [SeeDropped(t)] && Charged(chain, longer, t, n, x)
    ensures Enabled(After(chain, longer), RetireDead(t))
  {
    longer := BookedStep(chain, run, SeeDropped(t));
  }

  lemma {:induction false} RetiresAbandoned(chain: Chain, run: seq<Action>, t: TaskId, n: nat, x: int)
    returns (longer: seq<Action>)
    requires Charged(chain, run, t, n, x) && Enabled(After(chain, run), RetireDead(t))
    ensures longer == run + [RetireDead(t)] && Charged(chain, longer, t, n + 1, x)
  {
    longer := BookedStep(chain, run, RetireDead(t));
  }

  lemma {:induction false} GivesUpAbandoned(chain: Chain, run: seq<Action>, t: TaskId, n: nat, x: int)
    returns (more: seq<Action>)
    requires Charged(chain, run, t, n, x) && Enabled(After(chain, run), SeeDropped(t))
    ensures Charged(chain, run + more, t, n + 1, x)
  {
    var seen := SeesAbandoned(chain, run, t, n, x);
    var retired := RetiresAbandoned(chain, seen, t, n, x);
    more := [SeeDropped(t), RetireDead(t)];
    assert retired == run + more;
  }

  /** A call that finds an abandoned placeholder can wait for it, retire it and start over. */
  lemma {:induction false} AbandonedCostsARetry(chain: Chain, run: seq<Action>, t: TaskId, n: nat, x: int)
    returns (more: seq<Action>)
    requires Charged(chain, run, t, n, x) && After(chain, run).tasks[t].pc == Reading
    requires DeadAt(After(chain, run), After(chain, run).tasks[t].key, None) == 1
    ensures Charged(chain, run + more, t, n + 1, x)
  {
    var found := FindsAbandoned(chain, run, t, n, x);
    var last := GivesUpAbandoned(chain, found, t, n, x);
    more := [ReadEntry(t)] + last;
    assert found + last == run + more;
  }

  lemma {:induction false} Begins(chain: Chain, run: seq<Action>, k: Pubkey) returns (begun: seq<Action>)
    requires IsRun(chain, run)
    ensures begun == run + [Spawn(k)] && Charged(chain, begun, CallCount(chain, run), 0, 0)
    ensures After(chain, begun).tasks[CallCount(chain, run)] == Task(k, Reading, 0)
    ensures After(chain, begun).db == After(chain, run).db && After(chain, begun).fills == After(chain, run).fills
    ensures LedgerAfter(chain, begun).accounts[CallCount(chain, run)].credit == DeadAt(After(chain, run), k, None)
  {
    begun := BookedStep(chain, run, Spawn(k));
  }

  /** Exactly the calls that begin on an abandoned placeholder can start over although nobody
      interferes with them. */
  lemma {:induction false} UnprovokedExactly(chain: Chain, run: seq<Action>, k: Pubkey)
    requires IsRun(chain, run)
    ensures (exists more, n :: n > 0 && Charged(chain, run + [Spawn(k)] + more, CallCount(chain, run), n, 0))
            <==> DeadAt(After(chain, run), k, None) == 1
  {
    var t := CallCount(chain, run);
    var begun := Begins(chain, run, k);
    if DeadAt(After(chain, run), k, None) == 1 {
      var more := AbandonedCostsARetry(chain, begun, t, 0, 0);
      assert Charged(chain, run + [Spawn(k)] + more, t, 1, 0);
    }
    forall more, n | n > 0 && Charged(chain, begun + more, t, n, 0)
      ensures DeadAt(After(chain, run), k, None) == 1
    {
      CreditStays(chain, begun, more, t);
      RetriesCharged(chain, begun + more, t);
    }
  }

  /** Such placeholders occur: the owner of a first call is cancelled after its insert. */
  lemma {:induction false} PlaceholdersAreAbandoned(chain: Chain, k: Pubkey) returns (run: seq<Action>)
    ensures IsRun(chain, run) && DeadAt(After(chain, run), k, None) == 1
  {
    run := Append(chain, [], Spawn(k));
    run := Append(chain, run, ReadEntry(0));
    run := Append(chain, run, Insert(0, None));
    run := Append(chain, run, Cancel(0));
  }
}
